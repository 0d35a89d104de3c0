/** Report names: sanitizeName. */
module Naming {
  import opened Strings

  predicate Allowed(c: char) {
    'a' <= c <= 'z' || '0' <= c <= '9' || c == '-' || c == '.'
  }

  predicate Edge(c: char) {
    c == '-' || c == '.'
  }

  function Clean(s: string): string {
    seq(|s|, i requires 0 <= i < |s| => if Allowed(LowerChar(s[i])) then LowerChar(s[i]) else '-')
  }

  function TrimLeft(s: string): string {
    if s != "" && Edge(s[0]) then TrimLeft(s[1..]) else s
  }

  function TrimRight(s: string): string {
    if s != "" && Edge(s[|s| - 1]) then TrimRight(s[..|s| - 1]) else s
  }

  function Trimmed(s: string): string {
    TrimRight(TrimLeft(Clean(s)))
  }

  const MAX_LENGTH := 253

  function SanitizeName(s: string): string {
    var t := Trimmed(s);
    if |t| > MAX_LENGTH then t[..MAX_LENGTH] else t
  }

  predicate AllAllowed(s: string) {
    forall i :: 0 <= i < |s| ==> Allowed(s[i])
  }

  lemma {:induction false} TrimLeftProperties(s: string)
    ensures var t := TrimLeft(s); |t| <= |s| && t == s[|s| - |t|..] && (t == "" || !Edge(t[0]))
    decreases s
  {
    if s != "" && Edge(s[0]) { TrimLeftProperties(s[1..]); }
  }

  lemma {:induction false} TrimRightProperties(s: string)
    ensures var t := TrimRight(s); t <= s && (t == "" || !Edge(t[|t| - 1]))
    decreases s
  {
    if s != "" && Edge(s[|s| - 1]) { TrimRightProperties(s[..|s| - 1]); }
  }

  lemma TrimmedProperties(s: string)
    ensures var t := Trimmed(s); AllAllowed(t) && (t == "" || (!Edge(t[0]) && !Edge(t[|t| - 1])))
  {
    var c := Clean(s);
    assert AllAllowed(c);
    TrimLeftProperties(c);
    TrimRightProperties(TrimLeft(c));
  }

  /** Every result is made of allowed characters, fits a DNS name and does not start with '-' or '.';
      it is the empty string exactly when nothing but separators remains. */
  lemma SanitizedNameShape(s: string)
    ensures var r := SanitizeName(s);
            AllAllowed(r) && |r| <= MAX_LENGTH && (r == "" || !Edge(r[0])) && (r == "" <==> forall c :: c in Clean(s) ==> Edge(c))
  {
    TrimmedProperties(s);
    var c := Clean(s);
    var l := TrimLeft(c);
    TrimLeftProperties(c);
    TrimRightProperties(l);
    TrimmingKeeps(c);
    if SanitizeName(s) != "" {
      var r := SanitizeName(s);
      assert r[0] == l[0] && l[0] in c;
    } else if l != "" {
      assert l[0] in c;
      TrimRightKeeps(l);
    }
  }

  lemma {:induction false} TrimmingKeeps(s: string)
    ensures TrimLeft(s) == "" <==> forall c :: c in s ==> Edge(c)
    decreases s
  {
    if s != "" {
      assert forall c :: c in s <==> c == s[0] || c in s[1..];
      if Edge(s[0]) { TrimmingKeeps(s[1..]); } else { assert s[0] in s; }
    }
  }

  lemma {:induction false} TrimRightKeeps(s: string)
    requires s != "" && !Edge(s[0])
    ensures TrimRight(s) != ""
    decreases s
  {
    if Edge(s[|s| - 1]) { TrimRightKeeps(s[..|s| - 1]); }
  }

  /** On an already sanitised name only the right end can still change. */
  lemma ResanitizeTrimsRight(r: string)
    requires AllAllowed(r) && |r| <= MAX_LENGTH && (r == "" || !Edge(r[0]))
    ensures SanitizeName(r) == TrimRight(r)
  {
    assert Clean(r) == r by {
      forall i | 0 <= i < |r| ensures Clean(r)[i] == r[i] { assert Allowed(r[i]); }
    }
    TrimRightProperties(r);
  }

  /** Sanitising again changes nothing, and the name ends like a DNS name, exactly when the cut, if any,
      did not end on a separator: the name is cut after it was trimmed. */
  lemma IdempotentExactly(s: string)
    ensures SanitizeName(SanitizeName(s)) == SanitizeName(s)
       <==> |Trimmed(s)| <= MAX_LENGTH || !Edge(Trimmed(s)[MAX_LENGTH - 1])
    ensures var r := SanitizeName(s);
            r == "" || !Edge(r[|r| - 1]) <==> |Trimmed(s)| <= MAX_LENGTH || !Edge(Trimmed(s)[MAX_LENGTH - 1])
  {
    var r := SanitizeName(s);
    SanitizedNameShape(s);
    TrimmedProperties(s);
    ResanitizeTrimsRight(r);
    if r != "" && Edge(r[|r| - 1]) { TrimRightProperties(r[..|r| - 1]); }
  }

  /** A third application never changes anything. */
  lemma ThreeEqualTwo(s: string)
    ensures SanitizeName(SanitizeName(SanitizeName(s))) == SanitizeName(SanitizeName(s))
  {
    var r := SanitizeName(s);
    SanitizedNameShape(s);
    ResanitizeTrimsRight(r);
    TrimRightProperties(r);
    SanitizedNameShape(r);
    ResanitizeTrimsRight(SanitizeName(r));
  }

  lemma CleanConcat(a: string, b: string)
    ensures Clean(a + b) == Clean(a) + Clean(b)
    ensures AllAllowed(a) && AllAllowed(b) ==> AllAllowed(a + b)
  {}

  /** Names of allowed characters are clean, and there is nothing to trim between two letters or digits. */
  lemma CleanAlready(s: string)
    requires AllAllowed(s)
    ensures Clean(s) == s && (s != "" && !Edge(s[0]) && !Edge(s[|s| - 1]) ==> Trimmed(s) == s)
  {
    assert forall i :: 0 <= i < |s| ==> Allowed(s[i]) && LowerChar(s[i]) == s[i];
  }

  /** A name whose cut falls on its last dash. */
  function LongName(): string {
    "psr-" + seq(248, _ => 'a') + "-b"
  }

  /** That name ends on a dash after sanitising, and loses it when sanitised again. */
  lemma LongNameEndsOnDash()
    ensures var r := SanitizeName(LongName());
            |r| == MAX_LENGTH && r[|r| - 1] == '-' && SanitizeName(r) != r
  {
    var middle := seq(248, _ => 'a');
    var s := "psr-" + middle + "-b";
    assert AllAllowed("psr-") && AllAllowed(middle) && AllAllowed("-b");
    CleanConcat("psr-", middle);
    CleanConcat("psr-" + middle, "-b");
    CleanAlready(s);
    assert s[252] == '-';
    IdempotentExactly(s);
  }

  // ---- Kubernetes object names: parts between dots, each of which starts and ends on a letter or digit ----

  predicate ProperPart(p: string) {
    p != "" && !Edge(p[0]) && !Edge(p[|p| - 1])
  }

  function Parts(s: string): (parts: seq<string>)
    ensures parts != []
    decreases |s|
  {
    var i := IndexOf(s, '.');
    if i == |s| then [s] else [s[..i]] + Parts(s[i + 1..])
  }

  predicate AllProper(parts: seq<string>) {
    forall i :: 0 <= i < |parts| ==> ProperPart(parts[i])
  }

  predicate ObjectName(s: string) {
    |s| <= MAX_LENGTH && AllAllowed(s) && AllProper(Parts(s))
  }

  /** No dot is next to another separator. */
  predicate DotsStandAlone(s: string) {
    forall i :: 0 <= i < |s| - 1 && (s[i] == '.' || s[i + 1] == '.') ==> !Edge(s[i]) || !Edge(s[i + 1])
  }

  lemma AllProperCons(head: string, parts: seq<string>)
    ensures AllProper([head] + parts) <==> ProperPart(head) && AllProper(parts)
  {
    var all := [head] + parts;
    assert all[0] == head && forall j :: 0 <= j < |parts| ==> all[j + 1] == parts[j];
  }

  lemma {:induction false} PartsAreProperExactly(s: string)
    ensures AllProper(Parts(s)) <==> ProperPart(s) && DotsStandAlone(s)
    decreases |s|
  {
    var i := IndexOf(s, '.');
    if i == |s| {
      NoDotsStandAlone(s);
      AllProperCons(s, []);
      assert Parts(s) == [s] == [s] + [];
    } else {
      var head, tail := s[..i], s[i + 1..];
      assert s == head + ['.'] + tail;
      assert Parts(s) == [head] + Parts(tail);
      PartsAreProperExactly(tail);
      AllProperCons(head, Parts(tail));
      DotBetween(head, tail);
    }
  }

  lemma NoDotsStandAlone(s: string)
    requires '.' !in s[..|s|]
    ensures DotsStandAlone(s)
  {
    assert s[..|s|] == s;
  }

  /** The positions of a text around a dot. */
  lemma AroundDot(head: string, tail: string)
    ensures var s := head + ['.'] + tail;
            (forall j :: 0 <= j < |head| ==> s[j] == head[j]) && s[|head|] == '.'
            && (forall j :: |head| < j < |s| ==> s[j] == tail[j - |head| - 1])
  {}

  lemma ProperAroundDot(head: string, tail: string)
    requires var s := head + ['.'] + tail; ProperPart(s) && DotsStandAlone(s)
    ensures ProperPart(head) && ProperPart(tail) && DotsStandAlone(tail)
  {
    var s, k := head + ['.'] + tail, |head|;
    AroundDot(head, tail);
    assert k != 0 && !Edge(s[k - 1]);
    assert k != |s| - 1 && !Edge(s[k + 1]);
    forall j | 0 <= j < |tail| - 1 && (tail[j] == '.' || tail[j + 1] == '.') ensures !Edge(tail[j]) || !Edge(tail[j + 1]) {
      assert s[k + 1 + j] == tail[j] && s[k + 1 + j + 1] == tail[j + 1];
    }
  }

  lemma ProperWithDot(head: string, tail: string)
    requires '.' !in head && ProperPart(head) && ProperPart(tail) && DotsStandAlone(tail)
    ensures var s := head + ['.'] + tail; ProperPart(s) && DotsStandAlone(s)
  {
    var s, k := head + ['.'] + tail, |head|;
    AroundDot(head, tail);
    forall j | 0 <= j < |s| - 1 && (s[j] == '.' || s[j + 1] == '.') ensures !Edge(s[j]) || !Edge(s[j + 1]) {
      if j > k {
        assert s[j] == tail[j - k - 1] && s[j + 1] == tail[j - k - 1 + 1];
      }
    }
  }

  lemma DotBetween(head: string, tail: string)
    requires '.' !in head
    ensures var s := head + ['.'] + tail;
            ProperPart(s) && DotsStandAlone(s) <==> ProperPart(head) && ProperPart(tail) && DotsStandAlone(tail)
  {
    if ProperPart(head + ['.'] + tail) && DotsStandAlone(head + ['.'] + tail) { ProperAroundDot(head, tail); }
    if ProperPart(head) && ProperPart(tail) && DotsStandAlone(tail) { ProperWithDot(head, tail); }
  }

  /** Exactly when the result is a Kubernetes object name: something is left after trimming, the cut, if any,
      does not end on a separator, and in what is kept no dot is next to another separator. */
  lemma ObjectNameExactly(s: string)
    ensures var t := Trimmed(s);
            ObjectName(SanitizeName(s)) <==>
              t != "" && (|t| <= MAX_LENGTH || !Edge(t[MAX_LENGTH - 1])) && DotsStandAlone(SanitizeName(s))
  {
    SanitizedNameShape(s);
    IdempotentExactly(s);
    PartsAreProperExactly(SanitizeName(s));
  }

  /** Repository my_.github of owner org: the underscore becomes a dash before the dot. */
  lemma DashBeforeDot()
    ensures var r := SanitizeName("psr-org-my" + "_" + ".github"); r == "psr-org-my" + "-" + ".github" && !ObjectName(r)
  {
    var a, b := "psr-org-my", ".github";
    var s, r := a + "_" + b, a + "-" + b;
    assert AllAllowed(a) && AllAllowed(b) && AllAllowed("-");
    CleanConcat(a, "_");
    CleanConcat(a + "_", b);
    CleanConcat(a, "-");
    CleanConcat(a + "-", b);
    assert Clean("_") == "-";
    CleanAlready(a);
    CleanAlready(b);
    CleanAlready(r);
    assert Clean(s) == r == Clean(r);
    assert r[10] == '-' && r[11] == '.';
    PartsAreProperExactly(r);
  }

  /** What becomes of one character. */
  predicate BecomesChar(c: char, r: char) {
    if 'A' <= c <= 'Z' then r as int == c as int + 32
    else if 'a' <= c <= 'z' || '0' <= c <= '9' || c == '-' || c == '.' then r == c
    else if c == '\U{0130}' then r == 'i'
    else if c == '\U{212A}' then r == 'k'
    else r == '-'
  }

  predicate LetterOrDigit(c: char) {
    'a' <= c <= 'z' || 'A' <= c <= 'Z' || '0' <= c <= '9'
  }

  /** Between two letters or digits and within the length a name is sanitised character by character: letters
      to lower case, digits, dashes and dots as they are, anything else to a dash. */
  lemma SanitisedCharacters(s: string, i: nat)
    requires 0 < |s| <= 253 && LetterOrDigit(s[0]) && LetterOrDigit(s[|s| - 1]) && i < |s|
    ensures |SanitizeName(s)| == |s| && BecomesChar(s[i], SanitizeName(s)[i])
  {
    var c := Clean(s);
    assert !Edge(c[0]) && !Edge(c[|c| - 1]);
    assert SanitizeName(s) == c;
  }
}
