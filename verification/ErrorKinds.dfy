/** The error type of the device manager and its classification, the contract across both FFI seams. */
module ErrorKinds {
  import opened Basics

  /** Where in the manager a library failure surfaced; the fixed part of its text. */
  datatype Site =
    | Creation | StagingWelcome | IntoGroup | ExternalJoining | Encrypting | Adding | Removing
    | MergingPending | ClearingPending | MintingPackage | HashingPackage | StoringPackage | Serialising
    | LoadingGroup | LeafCredential

  /** The text of an `MlsError::OpenMls`, before it is formatted. */
  datatype Detail =
    | EpochGap(msgEpoch: nat, groupEpoch: nat)
    | PastEpochFrame(msgEpoch: nat, groupEpoch: nat)
    | OwnFrame(msgEpoch: nat, groupEpoch: nat)
    | Refusal(debug: string, msgEpoch: nat, groupEpoch: nat)
    | MergeFailed(debug: string)
    | StaleWelcome(epoch: nat, minEpoch: nat)
    | AlreadyPresent(name: string)
    | BurnStopped(burnt: nat, count: nat, debug: string)
    | IdentityMismatch(expected: string, loaded: string)
    | NothingToAdd
    | Library(site: Site, debug: string)

  datatype MlsError =
    | OpenMls(detail: Detail)
    | Serialization(text: string)
    | GroupNotFound(name: string)
    | InvalidData
    | Unrecoverable(text: string)
    | AlreadyMember
    | Evicted(name: string)
    | NoSuchMember

  datatype DecryptErrorKind =
    | SecretReuse
    | SenderRatchetGap
    | GenerationTooFarAhead
    | PastEpochApplication
    | OwnMessage
    | EvictedKind
    | SameEpochRefusal
    | UnrecoverableKind
    | Other

  const SECRET_REUSE := "SecretReuseError"
  const TOO_FAR := "TooDistantInTheFuture"
  const PAST_EPOCH := "past epoch application frame"
  const OWN_MESSAGE := "CannotDecryptOwnMessage"
  const SAME_EPOCH := "same-epoch refusal"
  const PROCESS := "Process error:"

  /** The ordered match of `MlsError::decrypt_kind`. */
  function DecryptKind(e: MlsError): DecryptErrorKind {
    match e
    case Unrecoverable(_) => UnrecoverableKind
    case Evicted(_) => EvictedKind
    case OpenMls(detail) => KindOfText(Render(detail))
    case _ => Other
  }

  /** The substring arms, in their order. */
  function KindOfText(s: string): DecryptErrorKind {
    if Contains(s, SECRET_REUSE) then SecretReuse
    else if Contains(s, TOO_FAR) then GenerationTooFarAhead
    else if Contains(s, PAST_EPOCH) then PastEpochApplication
    else if Contains(s, OWN_MESSAGE) then OwnMessage
    else if Contains(s, SAME_EPOCH) then SameEpochRefusal
    else if Contains(s, PROCESS) then SenderRatchetGap
    else Other
  }

  // ---- The texts `process_incoming_on_group` builds ----

  function EpochPair(msgEpoch: nat, groupEpoch: nat): string {
    " [msg_epoch=" + Decimal(msgEpoch) + ", group_epoch=" + Decimal(groupEpoch) + "]"
  }

  function GapText(msgEpoch: nat, groupEpoch: nat): string {
    PROCESS + " epoch gap" + EpochPair(msgEpoch, groupEpoch)
  }

  function PastEpochText(msgEpoch: nat, groupEpoch: nat): string {
    PROCESS + " " + PAST_EPOCH + EpochPair(msgEpoch, groupEpoch)
  }

  function OwnMessageText(msgEpoch: nat, groupEpoch: nat): string {
    PROCESS + " " + OWN_MESSAGE + EpochPair(msgEpoch, groupEpoch)
  }

  function SameEpochText(debug: string, msgEpoch: nat, groupEpoch: nat): string {
    PROCESS + " " + SAME_EPOCH + " " + debug + EpochPair(msgEpoch, groupEpoch)
  }

  function MergeText(debug: string): string {
    "Merge commit error: " + debug
  }

  /** The formatted text. Only those of the decrypt path are ever searched for a marker. */
  function Render(d: Detail): string {
    match d
    case EpochGap(m, g) => GapText(m, g)
    case PastEpochFrame(m, g) => PastEpochText(m, g)
    case OwnFrame(m, g) => OwnMessageText(m, g)
    case Refusal(debug, m, g) => SameEpochText(debug, m, g)
    case MergeFailed(debug) => MergeText(debug)
    case StaleWelcome(e, m) => "Welcome stale: epoch " + Decimal(e) + " < min_epoch " + Decimal(m)
    case AlreadyPresent(name) => "join_by_external_commit: group " + name + " already present locally"
    case BurnStopped(b, c, debug) =>
      "Burn error after " + Decimal(b) + "/" + Decimal(c) + " generation(s): " + debug
    case IdentityMismatch(e, l) =>
      "Credential identity mismatch: expected " + e + " but state contains " + l
    case NothingToAdd => "No valid KeyPackages to add"
    case Library(site, debug) => SiteText(site) + debug
  }

  function SiteText(site: Site): string {
    match site
    case Creation => "Creation error: "
    case StagingWelcome => "Join error (staged): "
    case IntoGroup => "Join error (into_group): "
    case ExternalJoining => "join_by_external_commit: "
    case Encrypting => "Encrypt error: "
    case Adding => "AddMembers error: "
    case Removing => "RemoveMembers error: "
    case MergingPending => "Merge pending commit error: "
    case ClearingPending => "Clear pending commit error: "
    case MintingPackage => "KeyPackage creation error: "
    case HashingPackage => "HashRef error: "
    case StoringPackage => "Storage error: "
    case Serialising => ""
    case LoadingGroup => ""
    case LeafCredential => "Invalid or non-UTF8 credential for member "
  }

  /** A printed epoch pair is made of digits and of the characters of its two labels. */
  predicate AbsentFromPair(c: char) {
    (c < '0' || '9' < c) && c !in " [msg_epoch=" && c !in ", group_epoch=" && c != ']'
  }

  lemma EpochPairLacks(m: nat, g: nat, c: char)
    requires AbsentFromPair(c)
    ensures c !in EpochPair(m, g)
  {
    DecimalHasOnlyDigits(m, c);
    DecimalHasOnlyDigits(g, c);
  }

  /** A fixed text followed by an epoch pair holds no marker one of whose characters it lacks. */
  lemma NoMarker(fixed: string, m: nat, g: nat, marker: string, i: nat)
    requires i < |marker| && marker[i] !in fixed && AbsentFromPair(marker[i])
    ensures !Contains(fixed + EpochPair(m, g), marker)
  {
    EpochPairLacks(m, g, marker[i]);
    MissingCharacter(fixed + EpochPair(m, g), marker, marker[i]);
  }

  lemma Leads(marker: string, mid: string, tail: string)
    ensures Contains(marker + mid + tail, marker)
  {
    assert (marker + mid + tail)[0..|marker|] == marker;
    assert OccursAt(marker + mid + tail, marker, 0);
  }

  /** One letter of each specific marker; no printed epoch pair contains any of them. */
  lemma MarkerLetters()
    ensures SECRET_REUSE[0] == 'S' && TOO_FAR[0] == 'T' && PAST_EPOCH[14] == 'l'
    ensures OWN_MESSAGE[0] == 'C' && SAME_EPOCH[4] == '-'
    ensures |SECRET_REUSE| > 0 && |TOO_FAR| > 0 && |PAST_EPOCH| > 14
    ensures |OWN_MESSAGE| > 0 && |SAME_EPOCH| > 4
  {
  }

  lemma LettersAbsentFromPair()
    ensures AbsentFromPair('S') && AbsentFromPair('T') && AbsentFromPair('l')
    ensures AbsentFromPair('C') && AbsentFromPair('-')
  {
  }

  /** The two ratchet markers start with a capital that no text of ours contains. */
  lemma NoRatchetMarker(fixed: string, m: nat, g: nat)
    requires 'S' !in fixed && 'T' !in fixed
    ensures !Contains(fixed + EpochPair(m, g), SECRET_REUSE)
    ensures !Contains(fixed + EpochPair(m, g), TOO_FAR)
  {
    MarkerLetters();
    LettersAbsentFromPair();
    NoMarker(fixed, m, g, SECRET_REUSE, 0);
    NoMarker(fixed, m, g, TOO_FAR, 0);
  }

  lemma NoLaterMarker(fixed: string, m: nat, g: nat)
    ensures 'l' !in fixed ==> !Contains(fixed + EpochPair(m, g), PAST_EPOCH)
    ensures 'C' !in fixed ==> !Contains(fixed + EpochPair(m, g), OWN_MESSAGE)
    ensures '-' !in fixed ==> !Contains(fixed + EpochPair(m, g), SAME_EPOCH)
  {
    MarkerLetters();
    LettersAbsentFromPair();
    if 'l' !in fixed { NoMarker(fixed, m, g, PAST_EPOCH, 14); }
    if 'C' !in fixed { NoMarker(fixed, m, g, OWN_MESSAGE, 0); }
    if '-' !in fixed { NoMarker(fixed, m, g, SAME_EPOCH, 4); }
  }

  lemma PastWords()
    ensures 'S' !in PROCESS + " " + PAST_EPOCH && 'T' !in PROCESS + " " + PAST_EPOCH
  {
  }

  lemma OwnWords()
    ensures 'S' !in PROCESS + " " + OWN_MESSAGE && 'T' !in PROCESS + " " + OWN_MESSAGE
    ensures 'l' !in PROCESS + " " + OWN_MESSAGE
  {
  }

  lemma GapWords()
    ensures 'S' !in PROCESS + " epoch gap" && 'T' !in PROCESS + " epoch gap"
    ensures 'l' !in PROCESS + " epoch gap" && 'C' !in PROCESS + " epoch gap"
    ensures '-' !in PROCESS + " epoch gap"
  {
  }

  lemma GapIsRetryable(m: nat, g: nat)
    ensures DecryptKind(OpenMls(EpochGap(m, g))) == SenderRatchetGap
  {
    GapWords();
    NoRatchetMarker(PROCESS + " epoch gap", m, g);
    NoLaterMarker(PROCESS + " epoch gap", m, g);
    Leads(PROCESS, " epoch gap", EpochPair(m, g));
  }

  lemma PastEpochIsPermanent(m: nat, g: nat)
    ensures DecryptKind(OpenMls(PastEpochFrame(m, g))) == PastEpochApplication
  {
    PastWords();
    NoRatchetMarker(PROCESS + " " + PAST_EPOCH, m, g);
    ContainsMiddle(PROCESS + " ", PAST_EPOCH, EpochPair(m, g));
  }

  lemma OwnMessageIsRecognised(m: nat, g: nat)
    ensures DecryptKind(OpenMls(OwnFrame(m, g))) == OwnMessage
  {
    OwnWords();
    NoRatchetMarker(PROCESS + " " + OWN_MESSAGE, m, g);
    NoLaterMarker(PROCESS + " " + OWN_MESSAGE, m, g);
    ContainsMiddle(PROCESS + " ", OWN_MESSAGE, EpochPair(m, g));
  }

  /** Whatever the library wrote, a same-epoch refusal lands in a permanent kind. */
  lemma SameEpochIsPermanent(debug: string, m: nat, g: nat)
    ensures DecryptKind(OpenMls(Refusal(debug, m, g))) in
            {SecretReuse, GenerationTooFarAhead, PastEpochApplication, OwnMessage, SameEpochRefusal}
    ensures Contains(debug, SECRET_REUSE) ==>
              DecryptKind(OpenMls(Refusal(debug, m, g))) == SecretReuse
  {
    var text := SameEpochText(debug, m, g);
    var before := PROCESS + " " + SAME_EPOCH + " ";
    assert Contains(text, SAME_EPOCH) by {
      ContainsMiddle(PROCESS + " ", SAME_EPOCH, " " + debug + EpochPair(m, g));
      assert text == PROCESS + " " + SAME_EPOCH + (" " + debug + EpochPair(m, g));
    }
    if Contains(debug, SECRET_REUSE) {
      ContainsInfix(before, debug, EpochPair(m, g), SECRET_REUSE);
    }
  }

  // ---- A failed merge ----

  /** A marker whose first letter the prefix lacks does not begin in it. */
  lemma PrefixHidesNothing(prefix: string, s: string, marker: string)
    requires marker != [] && marker[0] !in prefix
    ensures Contains(prefix + s, marker) <==> Contains(s, marker)
  {
    var whole := prefix + s;
    if Contains(whole, marker) {
      var i :| 0 <= i <= |whole| && OccursAt(whole, marker, i);
      assert whole[i] == whole[i..i + |marker|][0] == marker[0];
      assert i >= |prefix|;
      assert s[i - |prefix|..i - |prefix| + |marker|] == whole[i..i + |marker|];
      assert OccursAt(s, marker, i - |prefix|);
    }
    if Contains(s, marker) {
      assert prefix + s + [] == whole;
      ContainsInfix(prefix, s, [], marker);
    }
  }

  lemma MergePrefixLacks(c: char)
    requires c in "STpCsP"
    ensures c !in "Merge commit error: "
  {
  }

  lemma FirstLetters()
    ensures SECRET_REUSE != [] && SECRET_REUSE[0] in "STpCsP" && TOO_FAR != [] && TOO_FAR[0] in "STpCsP"
    ensures PAST_EPOCH != [] && PAST_EPOCH[0] in "STpCsP" && OWN_MESSAGE != [] && OWN_MESSAGE[0] in "STpCsP"
    ensures SAME_EPOCH != [] && SAME_EPOCH[0] in "STpCsP" && PROCESS != [] && PROCESS[0] in "STpCsP"
  {
    var letters := "STpCsP";
    assert letters[0] == 'S' && letters[1] == 'T' && letters[2] == 'p' && letters[3] == 'C' && letters[4] == 's' && letters[5] == 'P';
  }

  /** A failed merge is classed by the library's own text: our prefix takes no part. */
  lemma FailedMergeKind(debug: string)
    ensures DecryptKind(OpenMls(MergeFailed(debug))) == KindOfText(debug)
  {
    FirstLetters();
    forall marker | marker in [SECRET_REUSE, TOO_FAR, PAST_EPOCH, OWN_MESSAGE, SAME_EPOCH, PROCESS]
      ensures Contains(MergeText(debug), marker) <==> Contains(debug, marker)
    {
      MergePrefixLacks(marker[0]);
      PrefixHidesNothing("Merge commit error: ", debug, marker);
    }
  }

  /** The text mentions a process error and none of the five markers searched for before it. */
  predicate ReadsAsGap(debug: string) {
    && Contains(debug, PROCESS) && !Contains(debug, SECRET_REUSE) && !Contains(debug, TOO_FAR)
    && !Contains(debug, PAST_EPOCH) && !Contains(debug, OWN_MESSAGE) && !Contains(debug, SAME_EPOCH)
  }

  lemma ProcessWords()
    ensures 'S' !in PROCESS && 'T' !in PROCESS && 'l' !in PROCESS && 'C' !in PROCESS && '-' !in PROCESS
  {
  }

  lemma LacksMarker(text: string, marker: string, i: nat)
    requires i < |marker| && marker[i] !in text
    ensures !Contains(text, marker)
  {
    MissingCharacter(text, marker, marker[i]);
  }

  /** Such a text exists: the bare marker. */
  lemma BareMarkerReadsAsGap()
    ensures ReadsAsGap(PROCESS)
  {
    MarkerLetters();
    ProcessWords();
    Leads(PROCESS, [], []);
    assert PROCESS + [] + [] == PROCESS;
    LacksMarker(PROCESS, SECRET_REUSE, 0);
    LacksMarker(PROCESS, TOO_FAR, 0);
    LacksMarker(PROCESS, PAST_EPOCH, 14);
    LacksMarker(PROCESS, OWN_MESSAGE, 0);
    LacksMarker(PROCESS, SAME_EPOCH, 4);
  }

  // ---- Which errors are of which kind ----

  /** Eviction and an unrecoverable state have kinds of their own, which no library text can imitate. */
  lemma OwnKinds(e: MlsError)
    ensures DecryptKind(e) == EvictedKind <==> e.Evicted?
    ensures DecryptKind(e) == UnrecoverableKind <==> e.Unrecoverable?
    ensures !e.Evicted? && !e.Unrecoverable? && !e.OpenMls? ==> DecryptKind(e) == Other
  {
  }

  lemma OccurrenceHolds(haystack: string, needle: string, i: int, j: int)
    requires OccursAt(haystack, needle, i) && i <= j < i + |needle|
    ensures haystack[j] in needle
  {
    assert haystack[i..i + |needle|][j - i] == haystack[j];
  }

  /** A marker that shares no boundary with the suffix does not reach into it. */
  lemma SuffixHidesNothing(s: string, suffix: string, marker: string)
    requires marker != [] && suffix != [] && marker[0] !in suffix && suffix[0] !in marker
    ensures Contains(s + suffix, marker) <==> Contains(s, marker)
  {
    var whole := s + suffix;
    if Contains(whole, marker) {
      var i :| 0 <= i <= |whole| && OccursAt(whole, marker, i);
      assert whole[i] == whole[i..i + |marker|][0] == marker[0];
      assert i < |s|;
      assert whole[|s|] == suffix[0];
      if i + |marker| > |s| {
        OccurrenceHolds(whole, marker, i, |s|);
      }
      assert s[i..i + |marker|] == whole[i..i + |marker|];
      assert OccursAt(s, marker, i);
    }
    if Contains(s, marker) {
      assert [] + s + suffix == whole;
      ContainsInfix([], s, suffix, marker);
    }
  }

  lemma RefusalWords(m: nat, g: nat)
    ensures 'S' !in PROCESS + " " + SAME_EPOCH + " " && 'T' !in PROCESS + " " + SAME_EPOCH + " "
    ensures 'S' !in EpochPair(m, g) && 'T' !in EpochPair(m, g)
    ensures EpochPair(m, g) != [] && EpochPair(m, g)[0] == ' ' && ' ' !in SECRET_REUSE && ' ' !in TOO_FAR
  {
    LettersAbsentFromPair();
    EpochPairLacks(m, g, 'S');
    EpochPairLacks(m, g, 'T');
  }

  /** A ratchet marker is found in a same-epoch refusal exactly if the library wrote it. */
  lemma RatchetMarkerIsTheLibrarys(debug: string, m: nat, g: nat, marker: string)
    requires marker == SECRET_REUSE || marker == TOO_FAR
    ensures Contains(SameEpochText(debug, m, g), marker) <==> Contains(debug, marker)
  {
    var before, pair := PROCESS + " " + SAME_EPOCH + " ", EpochPair(m, g);
    RefusalWords(m, g);
    MarkerLetters();
    SuffixHidesNothing(before + debug, pair, marker);
    PrefixHidesNothing(before, debug, marker);
    assert SameEpochText(debug, m, g) == before + debug + pair;
  }

  /** The two ratchet kinds of a refusal, exactly. */
  lemma RatchetKindsAreExact(debug: string, m: nat, g: nat)
    ensures DecryptKind(OpenMls(Refusal(debug, m, g))) == SecretReuse <==> Contains(debug, SECRET_REUSE)
    ensures DecryptKind(OpenMls(Refusal(debug, m, g))) == GenerationTooFarAhead <==>
            !Contains(debug, SECRET_REUSE) && Contains(debug, TOO_FAR)
  {
    RatchetMarkerIsTheLibrarys(debug, m, g, SECRET_REUSE);
    RatchetMarkerIsTheLibrarys(debug, m, g, TOO_FAR);
  }
}
