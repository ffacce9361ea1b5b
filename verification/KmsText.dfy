/**
 The text frame every KMS failure carries and the scanner that reads it back
 (internal/kms/kms.go), and the classifier built on it (internal/cmek/classify.go).
 */
module KmsText {
  import opened Prelude

  datatype Code = Timeout | Unavailable | AccessDenied | KeyDisabled

  function CodeName(c: Code): string {
    match c
    case Timeout => "Timeout"
    case Unavailable => "Unavailable"
    case AccessDenied => "AccessDenied"
    case KeyDisabled => "KeyDisabled"
  }

  datatype KmsError = KmsError(code: Code, provider: string, msg: string)

  const MARK := "kms "
  const SEP := ": "
  const DEADLINE := "context deadline exceeded"

  function ErrorText(e: KmsError): string {
    MARK + e.provider + SEP + CodeName(e.code) + SEP + e.msg
  }

  predicate OccursAt(s: string, pat: string, i: int) {
    0 <= i && i + |pat| <= |s| && s[i..i + |pat|] == pat
  }

  /** Occurrence, character by character. */
  lemma OccursChars(s: string, pat: string, i: int)
    ensures OccursAt(s, pat, i) ==>
              0 <= i && i + |pat| <= |s| && forall n | 0 <= n < |pat| :: s[i + n] == pat[n]
  {
    if OccursAt(s, pat, i) {
      forall n | 0 <= n < |pat| ensures s[i + n] == pat[n] {
        assert s[i..i + |pat|][n] == pat[n];
      }
    }
  }

  lemma OccursIntro(s: string, pat: string, i: int)
    requires 0 <= i && i + |pat| <= |s| && forall n | 0 <= n < |pat| :: s[i + n] == pat[n]
    ensures OccursAt(s, pat, i)
  {
  }

  predicate Contains(s: string, pat: string) {
    exists i | 0 <= i <= |s| :: OccursAt(s, pat, i)
  }

  /** strings.Index from a position: the first occurrence at or after `from`, or -1. */
  function Index(s: string, pat: string, from: nat): (j: int)
    ensures j == -1 || (from <= j && OccursAt(s, pat, j))
    ensures forall i :: from <= i && (j == -1 || i < j) ==> !OccursAt(s, pat, i)
    decreases |s| - from
  {
    if from + |pat| > |s| then -1
    else if OccursAt(s, pat, from) then from
    else Index(s, pat, from + 1)
  }

  /** A frame "kms <provider>: <Code>: " starts at `at` and names code `c`. */
  predicate FrameAt(s: string, at: int, c: Code) {
    && OccursAt(s, MARK, at)
    && var k := Index(s, SEP, at + |MARK|);
       k >= 0 && OccursAt(s, CodeName(c) + SEP, k + |SEP|)
  }

  datatype Found = Found(start: nat, code: Code)

  lemma AtMostOneCode(s: string, k: int, c: Code, d: Code)
    requires OccursAt(s, CodeName(c) + SEP, k) && OccursAt(s, CodeName(d) + SEP, k)
    ensures c == d
  {
    assert s[k] == (CodeName(c) + SEP)[0] == (CodeName(d) + SEP)[0];
    assert CodeName(c)[0] == CodeName(d)[0];
  }

  lemma OneCode(s: string, k: int)
    ensures forall c, d :: OccursAt(s, CodeName(c) + SEP, k) && OccursAt(s, CodeName(d) + SEP, k) ==> c == d
  {
    forall c, d | OccursAt(s, CodeName(c) + SEP, k) && OccursAt(s, CodeName(d) + SEP, k) ensures c == d {
      AtMostOneCode(s, k, c, d);
    }
  }

  /** The code of the frame at `at`, if one starts there. */
  function CodeAt(s: string, at: nat): (r: Option<Code>)
    ensures forall c :: FrameAt(s, at, c) <==> r == Some(c)
  {
    if !OccursAt(s, MARK, at) then None
    else
      var k := Index(s, SEP, at + |MARK|);
      if k < 0 then None
      else
        (OneCode(s, k + 2);
         if OccursAt(s, CodeName(Timeout) + SEP, k + 2) then Some(Timeout)
         else if OccursAt(s, CodeName(Unavailable) + SEP, k + 2) then Some(Unavailable)
         else if OccursAt(s, CodeName(AccessDenied) + SEP, k + 2) then Some(AccessDenied)
         else if OccursAt(s, CodeName(KeyDisabled) + SEP, k + 2) then Some(KeyDisabled)
         else None)
  }

  /** Reference reading of a text: try every position in turn and take the first frame. */
  function FirstFrame(s: string, from: nat): (r: Option<Found>)
    ensures r.Some? ==> from <= r.value.start && FrameAt(s, r.value.start, r.value.code)
    ensures forall i: nat, c :: from <= i && (r.Some? ==> i < r.value.start) ==> !FrameAt(s, i, c)
    decreases |s| - from
  {
    if from >= |s| then None
    else match CodeAt(s, from)
      case Some(c) => Some(Found(from, c))
      case None => FirstFrame(s, from + 1)
  }

  /** The source's loop over its four codes. */
  method NamedAt(s: string, p: int) returns (r: Option<Code>)
    ensures forall c :: OccursAt(s, CodeName(c) + SEP, p) <==> r == Some(c)
  {
    OneCode(s, p);
    var codes := [Timeout, Unavailable, AccessDenied, KeyDisabled];
    for n := 0 to 4
      invariant forall m | 0 <= m < n :: !OccursAt(s, CodeName(codes[m]) + SEP, p)
    {
      if OccursAt(s, CodeName(codes[n]) + SEP, p) {
        return Some(codes[n]);
      }
    }
    forall c ensures !OccursAt(s, CodeName(c) + SEP, p) {
      assert c == codes[0] || c == codes[1] || c == codes[2] || c == codes[3];
    }
    return None;
  }

  method ReadFrame(s: string, at: nat) returns (r: Option<Code>)
    requires OccursAt(s, MARK, at)
    ensures r == CodeAt(s, at)
  {
    var k := Index(s, SEP, at + |MARK|);
    if k < 0 {
      return None;
    }
    r := NamedAt(s, k + |SEP|);
  }

  /** The scan of the source: jump from one "kms " to the next, resuming four characters on. */
  method Frame(s: string) returns (r: Option<Found>)
    ensures r == FirstFrame(s, 0)
  {
    var i := 0;
    while i < |s|
      invariant 0 <= i <= |s|
      invariant FirstFrame(s, 0) == FirstFrame(s, i)
    {
      var at := Index(s, MARK, i);
      if at < 0 {
        NoMarkNoFrame(s, i);
        return None;
      }
      NextMark(s, i);
      var c := ReadFrame(s, at);
      if c.Some? {
        return Some(Found(at, c.value));
      }
      i := at + |MARK|;
    }
    return None;
  }

  /** The text's first frame is at the next mark, or after it. */
  lemma NextMark(s: string, i: nat)
    requires 0 <= Index(s, MARK, i)
    ensures var at := Index(s, MARK, i);
            && at + |MARK| <= |s|
            && FirstFrame(s, i) == if CodeAt(s, at).Some? then Some(Found(at, CodeAt(s, at).value)) else FirstFrame(s, at + |MARK|)
  {
    var at := Index(s, MARK, i);
    SkipToMark(s, i, at);
    if CodeAt(s, at).None? { SkipMark(s, at); }
  }

  lemma NoMarkNoFrame(s: string, i: nat)
    requires Index(s, MARK, i) == -1
    ensures FirstFrame(s, i) == None
  {
  }

  lemma {:induction false} SkipToMark(s: string, i: nat, at: nat)
    requires i <= at <= |s|
    requires forall j :: i <= j < at ==> !OccursAt(s, MARK, j)
    ensures FirstFrame(s, i) == FirstFrame(s, at)
    decreases at - i
  {
    if i < at {
      assert CodeAt(s, i) == None;
      SkipToMark(s, i + 1, at);
    }
  }

  /** "kms " does not overlap itself, so resuming after it misses no frame. */
  lemma SkipMark(s: string, at: nat)
    requires OccursAt(s, MARK, at) && CodeAt(s, at) == None
    ensures FirstFrame(s, at) == FirstFrame(s, at + |MARK|)
  {
    OccursChars(s, MARK, at);
    assert s[at + 1] == MARK[1] && s[at + 2] == MARK[2] && s[at + 3] == MARK[3];
    forall j | at < j < at + 4 ensures !OccursAt(s, MARK, j) {
      OccursChars(s, MARK, j);
      assert MARK[0] == 'k';
    }
    assert FirstFrame(s, at) == FirstFrame(s, at + 1);
    SkipToMark(s, at + 1, at + 4);
  }

  /** kms.CodeFromText on the text of a non-nil error. */
  function CodeFromText(s: string): Option<Code> {
    match FirstFrame(s, 0)
    case Some(f) => Some(f.code)
    case None => if Index(s, DEADLINE, 0) >= 0 then Some(Timeout) else None
  }

  /** kms.Cause on the text of a non-nil error. */
  function Cause(s: string): string {
    match FirstFrame(s, 0)
    case Some(f) => s[f.start..]
    case None =>
      var i := Index(s, DEADLINE, 0);
      if i >= 0 then s[i..] else s
  }

  /** The first place where a text says what happened: a frame, or failing that a context deadline. */
  ghost predicate FirstFrameIs(s: string, at: nat, c: Code) {
    FrameAt(s, at, c) && forall i: nat, d | i < at :: !FrameAt(s, i, d)
  }

  ghost predicate FirstDeadlineIs(s: string, at: nat) {
    OccursAt(s, DEADLINE, at) && forall i: nat | i < at :: !OccursAt(s, DEADLINE, i)
  }

  lemma FrameComesFirst(s: string, at: nat, c: Code)
    requires FirstFrameIs(s, at, c) && at <= |s|
    ensures CodeFromText(s) == Some(c) && Cause(s) == s[at..]
  {
    var f := FirstFrame(s, 0);
    assert f.Some? && f.value.start == at;
    assert CodeAt(s, at) == Some(c) == Some(f.value.code);
  }

  /** With no frame in the text a deadline is a timeout and the cause starts there; with neither the text stands as it is. */
  lemma WithoutFrame(s: string, at: nat)
    requires forall i: nat, c :: !FrameAt(s, i, c)
    ensures FirstDeadlineIs(s, at) ==> CodeFromText(s) == Some(Timeout) && at <= |s| && Cause(s) == s[at..]
    ensures !Contains(s, DEADLINE) ==> CodeFromText(s) == None && Cause(s) == s
  {
    assert FirstFrame(s, 0).None?;
    var j := Index(s, DEADLINE, 0);
    if FirstDeadlineIs(s, at) { assert j == at; }
    if 0 <= j { assert OccursAt(s, DEADLINE, j); }
  }

  /** In "<provider>: ..." the first ": " is the one after the provider. */
  lemma FirstSeparator(a: string, provider: string, rest: string)
    requires !Contains(provider, SEP)
    ensures Index(a + provider + SEP + rest, SEP, |a|) == |a| + |provider|
  {
    var s := a + provider + SEP + rest;
    var b := |a| + |provider|;
    OccursIntro(s, SEP, b);
    forall i | |a| <= i < b ensures !OccursAt(s, SEP, i) {
      OccursChars(s, SEP, i);
      if i + 2 <= b {
        assert s[i..i + 2] == provider[i - |a|..i - |a| + 2];
        assert !OccursAt(provider, SEP, i - |a|);
      } else {
        assert s[i + 1] == ':';
      }
    }
  }

  /** The printed frame is one the scanner accepts, wherever the text stands. */
  lemma FrameOfErrorText(p: string, e: KmsError)
    requires !Contains(e.provider, SEP)
    ensures FrameAt(p + ErrorText(e), |p|, e.code)
  {
    var s := p + ErrorText(e);
    var name := CodeName(e.code) + SEP;
    assert s == (p + MARK) + e.provider + SEP + (name + e.msg);
    FirstSeparator(p + MARK, e.provider, name + e.msg);
    assert OccursAt(s, MARK, |p|);
    var k := |p| + 4 + |e.provider|;
    assert s[k + 2..k + 2 + |name|] == name;
  }

  /** A text without "kms " puts no mark in front of the frame it is glued to. */
  lemma NoMarkBefore(p: string, e: KmsError, i: int)
    requires !Contains(p, MARK) && 0 <= i < |p|
    ensures !OccursAt(p + ErrorText(e), MARK, i)
  {
    var s := p + ErrorText(e);
    OccursChars(s, MARK, i);
    if i + 4 <= |p| {
      assert p[i..i + 4] == s[i..i + 4];
      assert !OccursAt(p, MARK, i);
    } else {
      assert s[|p|] == 'k';
      assert MARK[|p| - i] != 'k';
    }
  }

  /**
   Round trip: for any leading text and any error whose provider has no ": ", the scanner finds
   exactly the printed frame if and only if no other frame starts inside the leading text.
   */
  lemma FrameRoundTrip(p: string, e: KmsError)
    requires !Contains(e.provider, SEP)
    ensures FirstFrame(p + ErrorText(e), 0) == Some(Found(|p|, e.code))
            <==> forall i: nat, c | i < |p| :: !FrameAt(p + ErrorText(e), i, c)
  {
    FrameOfErrorText(p, e);
    var s := p + ErrorText(e);
    var r := FirstFrame(s, 0);
    assert CodeAt(s, |p|) == Some(e.code);
    if forall i: nat, c | i < |p| :: !FrameAt(s, i, c) {
      assert r.Some?;
      assert r.value.start == |p|;
    }
  }

  // ---- Which providers can be read back ----

  predicate ReadBack(p: string, e: KmsError) {
    FirstFrame(p + ErrorText(e), 0) == Some(Found(|p|, e.code))
  }

  lemma IndexIs(s: string, pat: string, from: nat, k: int)
    requires from <= k && OccursAt(s, pat, k) && forall i | from <= i < k :: !OccursAt(s, pat, i)
    ensures Index(s, pat, from) == k
  {
  }

  /** A ": " inside the provider is found before the one after it. */
  lemma SeparatorInside(a: string, provider: string, rest: string, j: int)
    requires j == Index(provider, SEP, 0) && 0 <= j
    ensures Index(a + provider + rest, SEP, |a|) == |a| + j
  {
    var s := a + provider + rest;
    assert OccursAt(provider, SEP, j) && j + 2 <= |provider|;
    assert s[|a| + j..|a| + j + 2] == provider[j..j + 2];
    forall i | |a| <= i < |a| + j ensures !OccursAt(s, SEP, i) {
      assert s[i..i + 2] == provider[i - |a|..i - |a| + 2];
      assert !OccursAt(provider, SEP, i - |a|);
    }
    IndexIs(s, SEP, |a|, |a| + j);
  }

  lemma CharInside(a: string, provider: string, tail: string, j: int)
    requires 0 <= j < |provider| + |SEP|
    ensures (a + provider + (SEP + tail))[|a| + j] == (provider + SEP)[j]
  {
  }

  lemma CodeAfter(s: string, at: nat, c: Code, k: int, name: string)
    requires FrameAt(s, at, c) && k == Index(s, SEP, at + |MARK|) && name == CodeName(c) + SEP
    ensures 0 <= k && 0 < |name| && k + 2 < |s| && s[k + 2] == name[0]
  {
    OccursChars(s, name, k + 2);
  }

  lemma TextParts(p: string, e: KmsError, name: string)
    requires name == CodeName(e.code) + SEP
    ensures p + ErrorText(e) == (p + MARK) + e.provider + (SEP + (name + e.msg))
  {
  }

  /** The code is then read at that place, whatever comes later. */
  lemma CodeReadInside(p: string, e: KmsError, j: int, name: string)
    requires j == Index(e.provider, SEP, 0) && 0 <= j && FrameAt(p + ErrorText(e), |p|, e.code)
    requires name == CodeName(e.code) + SEP
    ensures j + 2 < |e.provider + SEP| && 0 < |name| && (e.provider + SEP)[j + 2] == name[0]
  {
    TextParts(p, e, name);
    CodeInside(p + ErrorText(e), |p|, p + MARK, e.provider, name + e.msg, e.code, j, name);
  }

  lemma CodeInside(s: string, at: nat, a: string, provider: string, tail: string, c: Code, j: int, name: string)
    requires s == a + provider + (SEP + tail) && |a| == at + |MARK| && FrameAt(s, at, c)
    requires j == Index(provider, SEP, 0) && 0 <= j && name == CodeName(c) + SEP
    ensures j + 2 < |provider + SEP| && 0 < |name| && (provider + SEP)[j + 2] == name[0]
  {
    SeparatorInside(a, provider, SEP + tail, j);
    CodeAfter(s, at, c, |a| + j, name);
    CharInside(a, provider, tail, j + 2);
  }

  /** One place cannot start both "Timeout" and "KeyDisabled". */
  lemma SeparatorConfuses(p: string, provider: string, msg: string)
    requires Contains(provider, SEP)
    ensures !(ReadBack(p, KmsError(Timeout, provider, msg)) && ReadBack(p, KmsError(KeyDisabled, provider, msg)))
  {
    var j := Index(provider, SEP, 0);
    var t, k := KmsError(Timeout, provider, msg), KmsError(KeyDisabled, provider, msg);
    if ReadBack(p, t) && ReadBack(p, k) {
      CodeReadInside(p, t, j, CodeName(Timeout) + SEP);
      CodeReadInside(p, k, j, CodeName(KeyDisabled) + SEP);
    }
  }

  /**
   The providers whose errors are read back, exactly: behind any text without "kms ", every code and every message of a
   provider come back in their own frame if and only if its name has no ": " in it.
   */
  lemma ReadableProviders(p: string, provider: string)
    requires !Contains(p, MARK)
    ensures (forall e: KmsError | e.provider == provider :: ReadBack(p, e)) <==> !Contains(provider, SEP)
  {
    if Contains(provider, SEP) {
      SeparatorConfuses(p, provider, provider);
    } else {
      forall e: KmsError | e.provider == provider ensures ReadBack(p, e) { TextRoundTrip(p, e); }
    }
  }

  /** The inclusion the source relies on: any leading text without "kms " is transparent. */
  lemma TextRoundTrip(p: string, e: KmsError)
    requires !Contains(e.provider, SEP) && !Contains(p, MARK)
    ensures ReadBack(p, e)
    ensures CodeFromText(p + ErrorText(e)) == Some(e.code)
    ensures Cause(p + ErrorText(e)) == ErrorText(e)
  {
    forall i: nat, c | i < |p| ensures !FrameAt(p + ErrorText(e), i, c) {
      NoMarkBefore(p, e, i);
    }
    FrameRoundTrip(p, e);
  }

  // ---- Go error chains and the classifier ----

  /** An error value: %w keeps the wrapped error in the chain, %v keeps its text only. */
  datatype Err =
    | Plain(text: string)
    | PoisonErr
    | Kms(e: KmsError)
    | Wrap(prefix: string, inner: Err)
    | Flat(prefix: string, inner: Err)

  datatype Class = OK | Transient | Deny | Poison

  function Text(err: Err): string {
    match err
    case Plain(t) => t
    case PoisonErr => "cmek: authentication failed"
    case Kms(e) => ErrorText(e)
    case Wrap(p, i) => p + Text(i)
    case Flat(p, i) => p + Text(i)
  }

  predicate IsPoison(err: Err) {
    err.PoisonErr? || (err.Wrap? && IsPoison(err.inner))
  }

  function AsKms(err: Err): Option<KmsError> {
    match err
    case Kms(e) => Some(e)
    case Wrap(_, i) => AsKms(i)
    case _ => None
  }

  function ClassOfCode(c: Option<Code>): Class {
    if c == Some(AccessDenied) || c == Some(KeyDisabled) then Deny else Transient
  }

  /** cmek.Classify; None is Go's nil error. */
  function Classify(err: Option<Err>): Class {
    match err
    case None => OK
    case Some(x) =>
      if IsPoison(x) then Poison
      else match AsKms(x)
        case Some(e) => ClassOfCode(Some(e.code))
        case None => ClassOfCode(CodeFromText(Text(x)))
  }

  /** What errors.Is and errors.As reach: the end of the chain of %w layers. */
  function Chained(err: Err): Err {
    match err
    case Wrap(_, i) => Chained(i)
    case _ => err
  }

  predicate Denies(c: Code) { c.AccessDenied? || c.KeyDisabled? }

  /** The text's first frame names a code of the provider's refusal. */
  ghost predicate TextDenies(s: string) {
    exists at: nat, c :: FrameAt(s, at, c) && Denies(c) && forall i: nat, d | i < at :: !FrameAt(s, i, d)
  }

  lemma TextDeniesExactly(s: string)
    ensures TextDenies(s) <==> ClassOfCode(CodeFromText(s)).Deny?
  {
    var f := FirstFrame(s, 0);
    if TextDenies(s) {
      var at: nat, c :| FrameAt(s, at, c) && Denies(c) && forall i: nat, d | i < at :: !FrameAt(s, i, d);
      assert f.Some? && f.value.start == at;
      assert CodeAt(s, at) == Some(c) == Some(f.value.code);
    } else if f.Some? {
      assert FrameAt(s, f.value.start, f.value.code);
    }
  }

  lemma {:induction false} ChainEnds(err: Err)
    ensures IsPoison(err) <==> Chained(err).PoisonErr?
    ensures AsKms(err) == if Chained(err).Kms? then Some(Chained(err).e) else None
  {
    if err.Wrap? { ChainEnds(err.inner); }
  }

  /** The classifier's table: nil, poison by identity, a refusal by type or else by text, and everything else transient. */
  lemma ClassesExactly(x: Err)
    ensures Classify(None) == OK && !Classify(Some(x)).OK?
    ensures Classify(Some(x)).Poison? <==> Chained(x).PoisonErr?
    ensures Classify(Some(x)).Deny? <==> match Chained(x)
      case PoisonErr => false
      case Kms(e) => Denies(e.code)
      case _ => TextDenies(Text(x))
  {
    ChainEnds(x);
    TextDeniesExactly(Text(x));
  }

  /** The KMS error at the bottom of any stack of %w and %v layers, and the text stacked in front of it. */
  function Bottom(err: Err): Option<KmsError> {
    match err
    case Kms(e) => Some(e)
    case Wrap(_, i) => Bottom(i)
    case Flat(_, i) => Bottom(i)
    case _ => None
  }

  function Lead(err: Err): string {
    match err
    case Wrap(p, i) => p + Lead(i)
    case Flat(p, i) => p + Lead(i)
    case _ => ""
  }

  lemma {:induction false} LayersText(err: Err)
    requires Bottom(err).Some?
    ensures Text(err) == Lead(err) + ErrorText(Bottom(err).value)
    ensures !IsPoison(err)
    ensures AsKms(err).Some? ==> AsKms(err) == Bottom(err)
  {
    match err
    case Kms(e) =>
    case Wrap(p, i) => LayersText(i);
    case Flat(p, i) => LayersText(i);
  }

  /**
   Down versus revoked survives flattening: through any stack of wrapping layers, whichever of them
   erased the type, the class is that of the typed error and the displayed cause is its frame.
   */
  lemma ClassifyThroughLayers(err: Err)
    requires Bottom(err).Some? && !Contains(Lead(err), MARK) && !Contains(Bottom(err).value.provider, SEP)
    ensures Classify(Some(err)) == Classify(Some(Kms(Bottom(err).value)))
    ensures Classify(Some(err)).Deny? <==> Bottom(err).value.code in {AccessDenied, KeyDisabled}
    ensures Cause(Text(err)) == ErrorText(Bottom(err).value)
  {
    LayersText(err);
    TextRoundTrip(Lead(err), Bottom(err).value);
  }

  lemma Regroup(mark: string, q: string, sep: string, a: string, b: string, msg: string)
    ensures mark + (q + sep + a) + sep + b + sep + msg == mark + q + sep + a + sep + (b + sep + msg)
  {
    assert mark + (q + sep + a) == mark + q + sep + a;
    assert mark + q + sep + a + sep + b + sep + msg == mark + q + sep + a + sep + (b + sep + msg);
  }

  lemma AmbiguousText(q: string, msg: string)
    ensures ErrorText(KmsError(KeyDisabled, q + SEP + CodeName(Timeout), msg))
            == ErrorText(KmsError(Timeout, q, CodeName(KeyDisabled) + SEP + msg))
  {
    Regroup(MARK, q, SEP, CodeName(Timeout), CodeName(KeyDisabled), msg);
  }

  lemma ClassOfText(p: string, e: KmsError, e': KmsError)
    requires ErrorText(e) == ErrorText(e') && !Contains(e'.provider, SEP) && !Contains(p, MARK)
    ensures Classify(Some(Flat(p, Kms(e)))) == ClassOfCode(Some(e'.code))
  {
    TextRoundTrip(p, e');
    assert Text(Flat(p, Kms(e))) == p + ErrorText(e');
  }

  /**
   The condition on the provider is needed: a disabled key at provider "q: Timeout" prints the very text of
   a timeout at provider "q", so after flattening the deny is read as an outage, for every q and message.
   */
  lemma ProviderWithSeparatorMisreads(p: string, q: string, msg: string, e: KmsError)
    requires !Contains(p, MARK) && !Contains(q, SEP)
    requires e.code == KeyDisabled && e.msg == msg && e.provider == q + SEP + CodeName(Timeout)
    ensures Classify(Some(Kms(e))) == Deny
    ensures Classify(Some(Flat(p, Kms(e)))) == Transient
  {
    AmbiguousText(q, msg);
    ClassOfText(p, e, KmsError(Timeout, q, CodeName(KeyDisabled) + SEP + msg));
  }
}
