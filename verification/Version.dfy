// shared/version: normalisation and ordering of release versions.
module Version {
  import opened Numbers
  import opened Text

  const UNKNOWN := "unknown"
  const DEV := "dev"

  function TrimPrefix(s: string, c: char): string {
    if s != "" && s[0] == c then s[1..] else s
  }

  function Clean(v: string): string {
    TrimPrefix(TrimPrefix(TrimSpace(v), 'v'), 'V')
  }

  predicate IsUnknown(v: string) {
    Clean(v) == "" || Clean(v) == UNKNOWN || Clean(v) == DEV
  }

  predicate IsDigit(c: char) { '0' <= c <= '9' }

  function Display(v: string): string {
    var raw := TrimSpace(v);
    var clean := Clean(raw);
    if clean == "" || !IsDigit(clean[0]) then raw else "v" + clean
  }

  // ---- strconv.Atoi on a 64-bit platform, with its error discarded ----

  const MAX_UINT64: nat := 0xFFFF_FFFF_FFFF_FFFF
  const MAX_INT64: int := 0x7FFF_FFFF_FFFF_FFFF

  datatype Parsed = Syntax | Range | Number(n: nat)

  // strconv.ParseUint in base 10: overflow is reported as soon as it happens, before later characters are read.
  function ParseUint(s: string, acc: nat): Parsed {
    if s == "" then Number(acc)
    else if !IsDigit(s[0]) then Syntax
    else if acc >= MAX_UINT64 / 10 + 1 then Range
    else
      var next := acc * 10 + (s[0] as int - '0' as int);
      if next > MAX_UINT64 then Range else ParseUint(s[1..], next)
  }

  // A malformed number counts as 0 and an out-of-range one as the nearest int.
  function Atoi(s: string): int {
    var negative := s != "" && s[0] == '-';
    var digits := if s != "" && (s[0] == '-' || s[0] == '+') then s[1..] else s;
    if digits == "" then 0
    else
      match ParseUint(digits, 0)
      case Syntax => 0
      case Range => if negative then -MAX_INT64 - 1 else MAX_INT64
      case Number(n) =>
        if negative then (if n > MAX_INT64 + 1 then -MAX_INT64 - 1 else 0 - n as int)
        else if n > MAX_INT64 then MAX_INT64 else n
  }

  // ---- the order ----

  function Parts(clean: string): seq<string> {
    Split(Split(clean, '-')[0], '.')
  }

  // Component i of a core version, zero beyond its end.
  function Component(parts: seq<string>, i: nat): int {
    if i < |parts| then Atoi(parts[i]) else 0
  }

  predicate HasPre(clean: string) { '-' in clean }

  // Sign of the first difference among components i..n-1.
  function CoreCompare(p: seq<string>, q: seq<string>, i: nat, n: nat): int
    decreases n - i
  {
    if i >= n then 0
    else if Component(p, i) > Component(q, i) then 1
    else if Component(p, i) < Component(q, i) then -1
    else CoreCompare(p, q, i + 1, n)
  }

  // The order on cleaned strings.
  function CleanOrder(a: string, b: string): int {
    var core := CoreCompare(Parts(a), Parts(b), 0, MaxNat(|Parts(a)|, |Parts(b)|));
    if a == b then 0
    else if core != 0 then core
    else if HasPre(a) && !HasPre(b) then -1
    else if !HasPre(a) && HasPre(b) then 1
    else StrCompare(a, b)
  }

  function Order(v1: string, v2: string): int { CleanOrder(Clean(v1), Clean(v2)) }

  // The loop of the source.
  method Compare(v1: string, v2: string) returns (r: int)
    ensures r == Order(v1, v2)
  {
    var a, b := Clean(v1), Clean(v2);
    if a == b { return 0; }
    var parts1, parts2 := Split(Split(a, '-')[0], '.'), Split(Split(b, '-')[0], '.');
    var maxLen := |parts1|;
    if |parts2| > maxLen { maxLen := |parts2|; }
    for i := 0 to maxLen
      invariant CoreCompare(Parts(a), Parts(b), 0, maxLen) == CoreCompare(Parts(a), Parts(b), i, maxLen)
    {
      var n1, n2 := 0, 0;
      if i < |parts1| { n1 := Atoi(parts1[i]); }
      if i < |parts2| { n2 := Atoi(parts2[i]); }
      if n1 > n2 { return 1; }
      if n1 < n2 { return -1; }
    }
    var hasPre1, hasPre2 := '-' in a, '-' in b;
    if hasPre1 && !hasPre2 { return -1; }
    if !hasPre1 && hasPre2 { return 1; }
    return StrCompare(a, b);
  }

  predicate AtLeast(v: string, min: string) {
    !IsUnknown(v) && !IsUnknown(min) && Order(v, min) >= 0
  }

  predicate IsNewer(latest: string, current: string) {
    Clean(latest) != "" && (IsUnknown(current) || Order(latest, current) > 0)
  }

  // ---- proofs about the order ----

  // The bound of the loop does not matter once it covers both versions.
  lemma {:induction false} CoreBound(p: seq<string>, q: seq<string>, i: nat, n: nat, m: nat)
    requires |p| <= n <= m && |q| <= n
    ensures CoreCompare(p, q, i, n) == CoreCompare(p, q, i, m)
    decreases m - i
  {
    if i < m { CoreBound(p, q, i + 1, n, m); }
  }

  lemma {:induction false} CoreAntisymmetric(p: seq<string>, q: seq<string>, i: nat, n: nat)
    ensures CoreCompare(p, q, i, n) == -CoreCompare(q, p, i, n)
    decreases n - i
  {
    if i < n { CoreAntisymmetric(p, q, i + 1, n); }
  }

  lemma {:induction false} CoreTransitive(p: seq<string>, q: seq<string>, r: seq<string>, i: nat, n: nat)
    requires CoreCompare(p, q, i, n) <= 0 && CoreCompare(q, r, i, n) <= 0
    ensures CoreCompare(p, r, i, n) <= 0
    ensures CoreCompare(p, r, i, n) == 0 <==> CoreCompare(p, q, i, n) == 0 && CoreCompare(q, r, i, n) == 0
    decreases n - i
  {
    if i < n && Component(p, i) == Component(q, i) == Component(r, i) { CoreTransitive(p, q, r, i + 1, n); }
  }

  // Antisymmetric, total, and zero exactly on equal cleaned strings.
  lemma OrderAntisymmetric(v1: string, v2: string)
    ensures Order(v1, v2) == -Order(v2, v1)
    ensures Order(v1, v2) in {-1, 0, 1}
    ensures Order(v1, v2) == 0 <==> Clean(v1) == Clean(v2)
  {
    var a, b := Clean(v1), Clean(v2);
    CoreAntisymmetric(Parts(a), Parts(b), 0, MaxNat(|Parts(a)|, |Parts(b)|));
    StrCompareOrder(a, b);
    StrCompareRange(a, b);
    CoreRange(Parts(a), Parts(b), 0, MaxNat(|Parts(a)|, |Parts(b)|));
  }

  lemma {:induction false} StrCompareRange(a: string, b: string)
    ensures StrCompare(a, b) in {-1, 0, 1}
  {
    if a != "" && b != "" && a[0] == b[0] { StrCompareRange(a[1..], b[1..]); }
  }

  lemma {:induction false} CoreRange(p: seq<string>, q: seq<string>, i: nat, n: nat)
    ensures CoreCompare(p, q, i, n) in {-1, 0, 1}
    decreases n - i
  {
    if i < n { CoreRange(p, q, i + 1, n); }
  }

  lemma OrderTransitive(v1: string, v2: string, v3: string)
    requires Order(v1, v2) <= 0 && Order(v2, v3) <= 0
    ensures Order(v1, v3) <= 0
    ensures Order(v1, v2) < 0 || Order(v2, v3) < 0 ==> Order(v1, v3) < 0
  {
    var a, b, c := Clean(v1), Clean(v2), Clean(v3);
    if a == c {
      OrderAntisymmetric(v1, v2);
    } else if a != b && b != c {
      var p, q, r := Parts(a), Parts(b), Parts(c);
      var n := MaxNat(|p|, MaxNat(|q|, |r|));
      CoreBound(p, q, 0, MaxNat(|p|, |q|), n);
      CoreBound(q, r, 0, MaxNat(|q|, |r|), n);
      CoreBound(p, r, 0, MaxNat(|p|, |r|), n);
      CoreTransitive(p, q, r, 0, n);
      if HasPre(a) == HasPre(b) == HasPre(c) && CoreCompare(p, r, 0, n) == 0 {
        StrCompareOrder(a, b);
        StrCompareOrder(b, c);
        StrCompareTransitive(a, b, c);
        StrCompareOrder(a, c);
      }
      StrCompareOrder(a, c);
    }
  }

  // What the order means, without the loop: the zero-padded component vectors are compared
  // lexicographically; on a tie a pre-release is older than a release, then the string that comes first.
  ghost predicate Older(a: string, b: string) {
    var p, q := Parts(a), Parts(b);
    || (exists k: nat :: Component(p, k) < Component(q, k) && forall j: nat :: j < k ==> Component(p, j) == Component(q, j))
    || ((forall j: nat :: Component(p, j) == Component(q, j))
        && ((HasPre(a) && !HasPre(b)) || (HasPre(a) == HasPre(b) && Before(a, b))))
  }

  lemma {:induction false} CoreMeaning(p: seq<string>, q: seq<string>, i: nat, n: nat)
    requires |p| <= n && |q| <= n
    requires forall j: nat :: j < i ==> Component(p, j) == Component(q, j)
    ensures CoreCompare(p, q, i, n) < 0 <==>
            exists k: nat :: Component(p, k) < Component(q, k) && forall j: nat :: j < k ==> Component(p, j) == Component(q, j)
    ensures CoreCompare(p, q, i, n) == 0 <==> forall j: nat :: Component(p, j) == Component(q, j)
    decreases n - i
  {
    if i < n {
      if Component(p, i) == Component(q, i) {
        CoreMeaning(p, q, i + 1, n);
      } else if Component(p, i) > Component(q, i) {
        forall k: nat | Component(p, k) < Component(q, k) && forall j: nat :: j < k ==> Component(p, j) == Component(q, j)
          ensures false
        {
          if i < k { var _ := Component(p, i) == Component(q, i); }
        }
      }
    }
  }

  lemma OrderMeaning(v1: string, v2: string)
    ensures Order(v1, v2) < 0 <==> Older(Clean(v1), Clean(v2))
  {
    var a, b := Clean(v1), Clean(v2);
    CoreMeaning(Parts(a), Parts(b), 0, MaxNat(|Parts(a)|, |Parts(b)|));
    StrCompareOrder(a, b);
    StrCompareMeaning(a, b);
  }

  // The components are the dot-separated parts of the text before the first hyphen.
  lemma PartsMeaning(clean: string)
    ensures Parts(clean) != [] && forall p :: p in Parts(clean) ==> '.' !in p && '-' !in p
    ensures var core := Join(Parts(clean), '.');
            core <= clean && (core == clean || clean[|core|] == '-')
  {
    var parts := Split(clean, '-');
    var core := parts[0];
    SplitParts(clean, '-');
    SplitParts(core, '.');
    JoinSplit(clean, '-');
    JoinSplit(core, '.');
    assert core in parts;
    if |parts| > 1 { assert clean == core + ['-'] + Join(parts[1..], '-'); }
  }

  // Writing out a missing component as 0 changes no component.
  lemma MissingIsZero(parts: seq<string>, i: nat)
    ensures Component(parts + ["0"], i) == Component(parts, i)
  {
    assert ParseUint("0", 0) == ParseUint("", 0);
    assert Atoi("0") == 0;
  }

  predicate AllDigits(s: string) { forall c :: c in s ==> IsDigit(c) }

  // The number that a string of digits denotes.
  ghost function Value(digits: string): nat {
    if digits == "" then 0
    else Value(digits[..|digits| - 1]) * 10 + (if IsDigit(digits[|digits| - 1]) then digits[|digits| - 1] as int - '0' as int else 0)
  }

  lemma NotDigits(s: string, j: nat, k: nat)
    requires j <= |s| && k < |s| && !IsDigit(s[k])
    ensures k < j ==> !AllDigits(s[..j])
  {
    if k < j { assert s[..j][k] == s[k]; }
  }

  // Reading on from the first k characters of s, which are digits.
  lemma {:induction false} ParseFrom(s: string, k: nat)
    requires k <= |s| && AllDigits(s[..k]) && Value(s[..k]) <= MAX_UINT64
    ensures ParseUint(s[k..], Value(s[..k])).Number? <==> AllDigits(s) && Value(s) <= MAX_UINT64
    ensures ParseUint(s[k..], Value(s[..k])).Number? ==> ParseUint(s[k..], Value(s[..k])).n == Value(s)
    ensures ParseUint(s[k..], Value(s[..k])).Range? <==>
              exists j: nat :: j <= |s| && AllDigits(s[..j]) && Value(s[..j]) > MAX_UINT64
    decreases |s| - k
  {
    assert s[..|s|] == s;
    if k == |s| {
      forall j: nat | j <= |s| && AllDigits(s[..j]) ensures Value(s[..j]) <= MAX_UINT64 { ValueGrows(s, j); }
    } else if !IsDigit(s[k]) {
      assert s[k] in s;
      forall j: nat | j <= |s| && AllDigits(s[..j]) ensures Value(s[..j]) <= MAX_UINT64 {
        NotDigits(s, j, k);
        assert s[..k][..j] == s[..j];
        ValueGrows(s[..k], j);
      }
    } else {
      assert s[..k + 1][..k] == s[..k];
      assert AllDigits(s[..k + 1]) by { assert s[..k + 1] == s[..k] + [s[k]]; }
      assert s[k..][1..] == s[k + 1..];
      if Value(s[..k + 1]) <= MAX_UINT64 {
        ParseFrom(s, k + 1);
      } else {
        if AllDigits(s) { ValueGrows(s, k + 1); }
      }
    }
  }

  lemma {:induction false} ValueGrows(s: string, j: nat)
    requires j <= |s|
    ensures Value(s[..j]) <= Value(s)
  {
    if j < |s| {
      assert s[..|s| - 1][..j] == s[..j];
      ValueGrows(s[..|s| - 1], j);
    } else {
      assert s[..j] == s;
    }
  }

  // Some beginning of the text is already a number beyond the unsigned 64-bit ones.
  ghost predicate TooLarge(s: string) {
    exists j: nat :: j <= |s| && AllDigits(s[..j]) && Value(s[..j]) > 0xFFFF_FFFF_FFFF_FFFF
  }

  // What a component counts for: the signed number it denotes, cut to the signed 64-bit ones; the nearest of
  // them when a beginning of it is already too large; 0 for any other text.
  lemma AtoiMeaning(sign: string, body: string)
    requires sign in {"", "+", "-"} && (sign == "" && body != "" ==> body[0] !in "+-")
    ensures var n := if sign == "-" then -(Value(body) as int) else Value(body);
            AllDigits(body) ==>
              Atoi(sign + body) == (if n > 0x7FFF_FFFF_FFFF_FFFF then 0x7FFF_FFFF_FFFF_FFFF else if n < -0x8000_0000_0000_0000 then -0x8000_0000_0000_0000 else n)
    ensures !AllDigits(body) ==>
              Atoi(sign + body) == (if !TooLarge(body) then 0 else if sign == "-" then -0x8000_0000_0000_0000 else 0x7FFF_FFFF_FFFF_FFFF)
  {
    hide Value, AllDigits, ParseUint;
    ParseNothing(body);
    ParseFrom(body, 0);
    assert body[..0] == "" && body[0..] == body && body[..|body|] == body;
    var s := sign + body;
    assert sign != "" ==> s[1..] == body;
    assert sign == "" ==> s == body;
  }

  lemma ParseNothing(body: string)
    ensures AllDigits(body[..0]) && Value(body[..0]) == 0 && (body == "" ==> ParseUint(body, 0) == Number(0))
  {
  }

  // ---- cleaning and displaying ----

  // How many characters the optional v and V at the start of a trimmed version take.
  function PrefixLength(t: string): (n: nat)
    ensures n <= |t|
  {
    if t != "" && t[0] == 'v' then (if |t| > 1 && t[1] == 'V' then 2 else 1)
    else if t != "" && t[0] == 'V' then 1
    else 0
  }

  // Only prefix is taken from the front of text, and the rest has no further letter that could be taken.
  ghost predicate CleanedOf(prefix: string, rest: string, text: string) {
    && text == prefix + rest
    && (rest != "" && rest[0] == 'V' ==> 'V' in prefix)
    && (rest != "" && rest[0] == 'v' ==> prefix != "")
  }

  // Cleaning takes the surrounding spaces and then at most one v and one V from the front, in this order.
  lemma CleanMeaning(v: string)
    ensures exists pre :: pre in {"", "v", "V", "vV"} && CleanedOf(pre, Clean(v), TrimSpace(v))
  {
    var t := TrimSpace(v);
    var pre := t[..PrefixLength(t)];
    assert |pre| >= 1 ==> t[..1] == [t[0]];
    assert |pre| == 2 ==> pre == [t[0], t[1]];
    assert CleanedOf(pre, Clean(v), t);
  }

  // Cleaning twice equals cleaning once exactly when, in the trimmed version, the character after the
  // optional v and V is not a space and not another v or V.
  lemma CleanIdempotentWhen(v: string)
    ensures var t := TrimSpace(v); var n := PrefixLength(t);
            Clean(Clean(v)) == Clean(v) <==> n == |t| || !(IsSpace(t[n]) || t[n] == 'v' || t[n] == 'V')
  {
    var t := TrimSpace(v);
    TrimSpaceTrims(v);
    hide TrimSpace, IsSpace;
    assert Clean(v) == t[PrefixLength(t)..];
    CleanAgain(Clean(v));
  }

  lemma CleanAgain(c: string)
    requires c == "" || !IsSpace(c[|c| - 1])
    ensures Clean(c) == c <==> c == "" || !(IsSpace(c[0]) || c[0] == 'v' || c[0] == 'V')
  {
    TrimSpaceTrims(c);
    if c != "" && IsSpace(c[0]) {
      TrimLeftShape(c);
      TrimRightShape(TrimLeft(c));
      assert |TrimSpace(c)| < |c|;
    }
    hide TrimSpace;
  }

  lemma CleanNotIdempotent()
    ensures Clean(Clean("vv1")) != Clean("vv1")
  {
    TrimSpaceTrims("vv1");
    assert Clean("vv1") == "v1";
    CleanIdempotentWhen("vv1");
  }

  // Displaying a version shows the same version, and displaying again changes nothing.
  lemma DisplayKeepsVersion(v: string)
    ensures Order(Display(v), v) == 0
    ensures Display(Display(v)) == Display(v)
    ensures Display(v) == TrimSpace(v) || Display(v) == "v" + Clean(v)
    ensures Display(v) == "v" + Clean(v) <==> TrimSpace(v) == "v" + Clean(v) || (Clean(v) != "" && '0' <= Clean(v)[0] <= '9')
  {
    TrimSpaceTrims(v);
    var raw := TrimSpace(v);
    TrimSpaceTrims(raw);
    var clean := Clean(raw);
    if clean != "" && IsDigit(clean[0]) {
      assert clean[|clean| - 1] == raw[|raw| - 1];
      TrimSpaceTrims("v" + clean);
      assert TrimPrefix("v" + clean, 'v') == clean;
    }
  }

  // ---- IsNewer ----

  // Among known versions IsNewer is a strict total order on cleaned strings.
  lemma IsNewerStrictOnKnown(a: string, b: string, c: string)
    requires !IsUnknown(a) && !IsUnknown(b) && !IsUnknown(c)
    ensures IsNewer(a, b) ==> !IsNewer(b, a)
    ensures IsNewer(a, b) || IsNewer(b, a) <==> Clean(a) != Clean(b)
    ensures IsNewer(a, b) && IsNewer(b, c) ==> IsNewer(a, c)
    ensures IsNewer(a, b) <==> !AtLeast(b, a)
  {
    OrderAntisymmetric(a, b);
    OrderAntisymmetric(b, c);
    OrderAntisymmetric(a, c);
    if IsNewer(a, b) && IsNewer(b, c) { OrderTransitive(c, b, a); }
  }

  // A version counts as newer than itself exactly when it is one of the two placeholders.
  lemma IsNewerThanItself(a: string)
    ensures IsNewer(a, a) <==> Clean(a) in {"unknown", "dev"}
  {
  }
}
