/**
 Printing amounts with their decimal point and reading them back (libraries/chain/asset_object.cpp).
 */
module AmountText {
  import opened Options
  import opened Money

  const MAX_PRECISION: nat := 18
  const INT64_LIMIT: int := 0x8000_0000_0000_0000

  predicate Fits(n: int) { -INT64_LIMIT <= n < INT64_LIMIT }

  function Pow10(p: nat): (n: nat)
    ensures n > 0
  {
    if p == 0 then 1 else 10 * Pow10(p - 1)
  }

  // ---------------------------------------------------------------- decimal numbers

  predicate IsDigit(c: char) { '0' <= c <= '9' }

  predicate AllDigits(s: string) { forall i | 0 <= i < |s| :: IsDigit(s[i]) }

  function Digit(d: nat): (c: char)
    requires d < 10
    ensures IsDigit(c) && c as int - '0' as int == d
  {
    (d + '0' as int) as char
  }

  function Digits(n: nat): (s: string)
    ensures s != "" && AllDigits(s)
  {
    if n < 10 then [Digit(n)] else Digits(n / 10) + [Digit(n % 10)]
  }

  function Value(s: string): nat
    requires AllDigits(s)
  {
    if s == "" then 0 else 10 * Value(s[..|s| - 1]) + (s[|s| - 1] as int - '0' as int)
  }

  lemma {:induction false} DigitsHaveValue(n: nat)
    ensures Value(Digits(n)) == n
  {
    if n < 10 {
      assert Digits(n)[..0] == "";
    } else {
      DigitsHaveValue(n / 10);
      assert Digits(n)[..|Digits(n)| - 1] == Digits(n / 10);
    }
  }

  /** `d` with exactly `p` digits. */
  function Padded(d: nat, p: nat): (s: string)
    ensures |s| == p && AllDigits(s)
  {
    if p == 0 then "" else Padded(d / 10, p - 1) + [Digit(d % 10)]
  }

  lemma {:induction false} PaddedHasValue(d: nat, p: nat)
    requires d < Pow10(p)
    ensures Value(Padded(d, p)) == d
  {
    if p > 0 {
      PaddedHasValue(d / 10, p - 1);
      assert Padded(d, p)[..p - 1] == Padded(d / 10, p - 1);
    }
  }

  /** Adding the scale puts a one in front of the padded digits. */
  lemma {:induction false} ScaleLeads(d: nat, p: nat)
    requires d < Pow10(p)
    ensures Digits(Pow10(p) + d) == "1" + Padded(d, p)
  {
    if p > 0 {
      ScaleLeads(d / 10, p - 1);
      assert (Pow10(p) + d) / 10 == Pow10(p - 1) + d / 10 && (Pow10(p) + d) % 10 == d % 10;
      assert "1" + Padded(d, p) == "1" + Padded(d / 10, p - 1) + [Digit(d % 10)];
    }
  }

  // ---------------------------------------------------------------------- printing

  function Abs(n: int): nat { if n < 0 then -n else n }

  function Div(n: nat, d: nat): nat
    requires d > 0
  {
    n / d
  }

  function Mod(n: nat, d: nat): (r: nat)
    requires d > 0
    ensures r < d
  {
    n % d
  }

  function Whole(n: nat, p: nat): nat { Div(n, Pow10(p)) }

  function Part(n: nat, p: nat): (d: nat)
    ensures d < Pow10(p)
  {
    Mod(n, Pow10(p))
  }

  lemma WholeAndPart(n: nat, p: nat)
    ensures n == Whole(n, p) * Pow10(p) + Part(n, p) && Whole(n, p) <= n && Part(n, p) <= n
  {
    FloorBounds(n, Pow10(p));
    MulMonotone(Whole(n, p), 1, Pow10(p));
  }

  /** A sign, the whole units, and the part below one unit unless it is zero. */
  function Text(negative: bool, q: nat, d: nat, p: nat): string
  {
    (if negative then "-" else "") + Digits(q) + (if d == 0 then "" else "." + Digits(Pow10(p) + d)[1..])
  }

  /** amount_to_string */
  function Printed(amount: int, p: nat): string
  {
    Text(amount < 0, Whole(Abs(amount), p), Part(Abs(amount), p), p)
  }

  method AmountToString(amount: int, p: nat) returns (r: Option<string>)
    requires -INT64_LIMIT < amount < INT64_LIMIT
    ensures r == if p <= MAX_PRECISION then Some(Printed(amount, p)) else None
  {
    hide Digits, Div, Mod, Pow10, Text;
    var negative, n := amount < 0, Abs(amount);
    var scale := Scale(p);
    if scale == 0 { return None; }
    var text, d := Digits(Div(n, scale)), Mod(n, scale);
    if d != 0 { text := text + "." + Digits(scale + d)[1..]; }
    if negative { text := "-" + text; }
    Assembled(negative, n, p, text);
    r := Some(text);
  }

  lemma Assembled(negative: bool, n: nat, p: nat, text: string)
    requires text == (var q, d := Digits(Whole(n, p)), Part(n, p);
                      var u := if d == 0 then q else q + "." + Digits(Pow10(p) + d)[1..];
                      if negative then "-" + u else u)
    ensures text == Text(negative, Whole(n, p), Part(n, p), p)
  {
    hide Digits, Pow10, Div, Mod;
    var q, d := Digits(Whole(n, p)), Part(n, p);
    if d != 0 {
      Regroup(if negative then "-" else "", q, ".", Digits(Pow10(p) + d)[1..]);
    } else {
      Regroup(if negative then "-" else "", q, "", "");
    }
  }

  lemma Regroup(a: string, b: string, c: string, d: string)
    ensures a + (b + c + d) == a + b + (c + d) && (a == "" ==> b + c + d == a + b + (c + d))
  {
  }

  /** The loop that scales by the precision; zero stands for an overflow. */
  method Scale(p: nat) returns (scale: nat)
    ensures scale == if p <= MAX_PRECISION then Pow10(p) else 0
  {
    scale := 1;
    for i := 0 to p
      invariant scale == Pow10(i) && i <= MAX_PRECISION
    {
      ScaleFits(i);
      if 10 * scale >= INT64_LIMIT { return 0; }
      scale := 10 * scale;
    }
  }

  /** Ten to the eighteenth is the largest power of ten in 64 bits. */
  lemma ScaleFits(i: nat)
    requires i <= MAX_PRECISION
    ensures i < MAX_PRECISION <==> 10 * Pow10(i) < INT64_LIMIT
  {
    assert Pow10(6) == 1_000_000;
    PowAdds(6, 6);
    PowAdds(12, 6);
    if i < MAX_PRECISION { PowGrows(i + 1, MAX_PRECISION); }
  }

  lemma {:induction false} PowAdds(a: nat, b: nat)
    ensures Pow10(a + b) == Pow10(a) * Pow10(b)
  {
    if b > 0 { PowAdds(a, b - 1); }
  }

  lemma {:induction false} PowGrows(a: nat, b: nat)
    requires a <= b
    ensures Pow10(a) <= Pow10(b)
  {
    if a < b { PowGrows(a, b - 1); }
  }

  // ----------------------------------------------------------------------- parsing

  function LeadingDigits(s: string): (d: string)
    ensures AllDigits(d)
  {
    if s == "" || !IsDigit(s[0]) then "" else [s[0]] + LeadingDigits(s[1..])
  }

  /** stoll: a sign and digits; whatever follows is ignored. */
  function Stoll(s: string): Option<int>
  {
    var negative := s != "" && s[0] == '-';
    var d := LeadingDigits(if negative then s[1..] else s);
    var v: int := if negative then -(Value(d) as int) else Value(d);
    if d == "" || !Fits(v) then None else Some(v)
  }

  /** Digits, at most one minus sign and at most one point, anywhere. */
  ghost predicate WellFormed(s: string)
  {
    && (forall i | 0 <= i < |s| :: IsDigit(s[i]) || s[i] == '-' || s[i] == '.')
    && forall i, j | 0 <= i < j < |s| && s[i] == s[j] :: IsDigit(s[i])
  }

  function Find(s: string, c: char): (i: nat)
    ensures i <= |s| && (i < |s| ==> s[i] == c) && forall j | 0 <= j < i :: s[j] != c
  {
    if s == "" then 0 else if s[0] == c then 0 else 1 + Find(s[1..], c)
  }

  function Zeros(n: nat): (s: string)
    ensures |s| == n && forall i | 0 <= i < n :: s[i] == '0'
  {
    seq(n, _ => '0')
  }

  /** The part before the point, as substr(negative_found, decimal_pos) takes it. */
  function Front(s: string): string
  {
    var start, pos := if '-' in s then 1 else 0, Find(s, '.');
    if '.' !in s then s[start..] else s[start..if start + pos <= |s| then start + pos else |s|]
  }

  function WholeValue(s: string, p: nat): Option<int>
  {
    if Front(s) == "" then Some(0)
    else
      var v := Stoll(Front(s));
      if v.None? || !Fits(v.value * Pow10(p)) then None else Some(v.value * Pow10(p))
  }

  function PartValue(s: string, p: nat): Option<int>
  {
    if '.' !in s then Some(0)
    else
      var rest := s[Find(s, '.') + 1..];
      if |rest| > p then None else if p == 0 then Some(0) else Stoll(rest + Zeros(p - |rest|))
  }

  /** amount_from_string */
  ghost function Parsed(s: string, p: nat): Option<int>
  {
    if !WellFormed(s) || p > MAX_PRECISION then None
    else
      var whole, part := WholeValue(s, p), PartValue(s, p);
      if whole.None? || part.None? || !Fits(whole.value + part.value) || whole.value + part.value > MAX_SHARES then None
      else Some(if '-' in s then -(whole.value + part.value) else whole.value + part.value)
  }

  /** The scan for allowed characters. */
  method Scan(s: string) returns (ok: bool, negative: bool, point: bool)
    ensures ok <==> WellFormed(s)
    ensures ok ==> (negative <==> '-' in s) && (point <==> '.' in s)
  {
    negative, point := false, false;
    for i := 0 to |s|
      invariant (forall j | 0 <= j < i :: IsDigit(s[j]) || s[j] == '-' || s[j] == '.')
      invariant (negative <==> '-' in s[..i]) && (point <==> '.' in s[..i])
      invariant forall j, k | 0 <= j < k < i && s[j] == s[k] :: IsDigit(s[j])
    {
      assert s[..i + 1] == s[..i] + [s[i]];
      if IsDigit(s[i]) {
      } else if s[i] == '-' && !negative {
        negative := true;
      } else if s[i] == '.' && !point {
        point := true;
      } else {
        Repeated(s, i);
        return false, negative, point;
      }
    }
    assert s[..|s|] == s;
    ok := true;
  }

  lemma Repeated(s: string, i: nat)
    requires i < |s| && !IsDigit(s[i]) && (s[i] == '-' || s[i] == '.' ==> s[i] in s[..i])
    ensures !WellFormed(s)
  {
    if s[i] == '-' || s[i] == '.' {
      var j :| 0 <= j < i && s[..i][j] == s[i];
      assert s[j] == s[i];
    }
  }

  method AmountFromString(s: string, p: nat) returns (r: Option<int>)
    ensures r == Parsed(s, p)
  {
    hide WellFormed, Stoll, Pow10;
    var ok, negative, point := Scan(s);
    if !ok || p > MAX_PRECISION { return None; }
    var whole := WholeValue(s, p);
    if whole.None? { return None; }
    var total := whole.value;
    if point {
      var rest := s[Find(s, '.') + 1..];
      if |rest| > p { return None; }
      var n := |rest|;
      ghost var start := rest;
      while |rest| < p
        invariant n <= |rest| <= p && rest == start + Zeros(|rest| - n)
      {
        rest := rest + ['0'];
      }
      if rest != "" {
        var part := Stoll(rest);
        if part.None? { return None; }
        total := total + part.value;
      }
    }
    if !Fits(total) || total > MAX_SHARES { return None; }
    r := Some(if negative then -total else total);
  }

  // ------------------------------------------------------------------- round trip

  lemma {:induction false} LeadingAll(s: string, t: string)
    requires AllDigits(s) && (t == "" || !IsDigit(t[0]))
    ensures LeadingDigits(s + t) == s
  {
    if s == "" {
      assert s + t == t;
    } else {
      assert (s + t)[1..] == s[1..] + t;
      LeadingAll(s[1..], t);
    }
  }

  lemma StollReads(s: string, t: string)
    requires AllDigits(s) && s != "" && (t == "" || !IsDigit(t[0])) && Fits(Value(s))
    ensures Stoll(s + t) == Some(Value(s))
  {
    LeadingAll(s, t);
  }

  /** Every amount up to the largest is read back as printed, at every precision, negative or not. */
  lemma RoundTrip(amount: int, p: nat)
    requires p <= MAX_PRECISION && Abs(amount) <= MAX_SHARES
    ensures Parsed(Printed(amount, p), p) == Some(amount)
  {
    hide Pow10, Text, WellFormed, WholeValue, PartValue, Whole, Part;
    var q, d := Whole(Abs(amount), p), Part(Abs(amount), p);
    WholeAndPart(Abs(amount), p);
    Shape(amount < 0, q, d, p);
    WholeReads(amount < 0, q, d, p);
    PartReads(amount < 0, q, d, p);
  }

  function Sign(negative: bool): string { if negative then "-" else "" }

  function Tail(d: nat, p: nat): string { if d == 0 then "" else "." + Padded(d, p) }

  /** A printed amount is a sign, digits, and when needed a point and exactly `p` digits. */
  lemma Shape(negative: bool, q: nat, d: nat, p: nat)
    requires d < Pow10(p)
    ensures var s := Text(negative, q, d, p);
            && s == Sign(negative) + Digits(q) + Tail(d, p)
            && WellFormed(s) && ('-' in s <==> negative) && ('.' in s <==> d != 0)
  {
    hide Pow10, Digits, Padded, WellFormed;
    ScaleLeads(d, p);
    assert ("1" + Padded(d, p))[1..] == Padded(d, p);
    Characters(Sign(negative), Digits(q), Tail(d, p), Padded(d, p));
  }

  lemma Characters(sign: string, q: string, tail: string, part: string)
    requires (sign == "" || sign == "-") && AllDigits(q) && AllDigits(part) && (tail == "" || tail == "." + part)
    ensures var s := sign + q + tail;
            WellFormed(s) && ('-' in s <==> sign == "-") && ('.' in s <==> tail != "")
  {
    var s := sign + q + tail;
    forall i | 0 <= i < |s| ensures s[i] == if i < |sign| then '-' else if i < |sign| + |q| then q[i - |sign|]
                                           else if i == |sign| + |q| then '.' else part[i - |sign| - |q| - 1] {}
    if sign != "" { assert s[0] == '-'; }
    if tail != "" { assert s[|sign| + |q|] == '.'; }
  }

  /** The point is right behind the whole units. */
  lemma {:induction false} PointAt(front: string, part: string)
    requires '.' !in front
    ensures Find(front + "." + part, '.') == |front| && (front + "." + part)[|front| + 1..] == part
  {
    if front == "" {
      assert front + "." + part == "." + part;
    } else {
      assert (front + "." + part)[1..] == front[1..] + "." + part;
      PointAt(front[1..], part);
    }
  }

  /** What is before the point, for a negative amount with the point itself. */
  lemma FrontOf(negative: bool, q: nat, d: nat, p: nat)
    requires d < Pow10(p)
    ensures Front(Text(negative, q, d, p)) == Digits(q) + (if negative && d != 0 then "." else "")
  {
    hide Pow10, Digits, Padded, Text, WellFormed, Front;
    Shape(negative, q, d, p);
    if d != 0 { FrontWithPoint(Sign(negative), Digits(q), Padded(d, p)); } else { FrontWithout(Sign(negative), Digits(q)); }
    assert Digits(q) + "" == Digits(q);
  }

  lemma FrontWithout(sign: string, q: string)
    requires (sign == "" || sign == "-") && AllDigits(q)
    ensures Front(sign + q + "") == q
  {
    hide Find;
    Characters(sign, q, "", "");
    assert sign + q + "" == sign + q;
    assert (sign + q)[|sign|..] == q;
  }

  lemma FrontWithPoint(sign: string, q: string, part: string)
    requires (sign == "" || sign == "-") && AllDigits(q) && AllDigits(part)
    ensures Front(sign + q + ("." + part)) == q + (if sign == "-" then "." else "")
  {
    hide Find, WellFormed;
    Characters(sign, q, "." + part, part);
    assert sign + q + ("." + part) == sign + q + "." + part;
    PointAt(sign + q, part);
    Cut(sign, q, part);
  }

  lemma Cut(sign: string, q: string, part: string)
    ensures var s := sign + q + "." + part;
            |s| == |sign| + |q| + 1 + |part| && s[|sign|..|sign| + |q|] == q && s[|sign|..|sign| + |q| + 1] == q + "."
  {
  }

  lemma WholeReads(negative: bool, q: nat, d: nat, p: nat)
    requires d < Pow10(p) && q <= MAX_SHARES && q * Pow10(p) <= MAX_SHARES
    ensures WholeValue(Text(negative, q, d, p), p) == Some(q * Pow10(p))
  {
    hide Pow10, Text, Front, Stoll;
    FrontOf(negative, q, d, p);
    DigitsHaveValue(q);
    StollReads(Digits(q), if negative && d != 0 then "." else "");
  }

  lemma PartReads(negative: bool, q: nat, d: nat, p: nat)
    requires d < Pow10(p) && d <= MAX_SHARES
    ensures PartValue(Text(negative, q, d, p), p) == Some(d)
  {
    hide Text, Find, WellFormed, Stoll, Digits;
    Shape(negative, q, d, p);
    if d != 0 {
      var front := Sign(negative) + Digits(q);
      PointAt(front, Padded(d, p));
      assert Text(negative, q, d, p) == front + "." + Padded(d, p);
      PaddedHasValue(d, p);
      assert Padded(d, p) + Zeros(0) == Padded(d, p) + "";
      StollReads(Padded(d, p), "");
    }
  }

  // --------------------------------------------------------------- what is read

  lemma {:induction false} ValueOfZeros(r: string, k: nat)
    requires AllDigits(r)
    ensures AllDigits(r + Zeros(k)) && Value(r + Zeros(k)) == Value(r) * Pow10(k)
  {
    if k == 0 {
      assert r + Zeros(0) == r;
    } else {
      ValueOfZeros(r, k - 1);
      assert (r + Zeros(k))[..|r| + k - 1] == r + Zeros(k - 1);
    }
  }

  lemma {:induction false} ValueBelow(s: string)
    requires AllDigits(s)
    ensures Value(s) < Pow10(|s|)
  {
    if s != "" { ValueBelow(s[..|s| - 1]); }
  }

  lemma StollFits(d: string, t: string)
    requires AllDigits(d) && (t == "" || (!IsDigit(t[0]) && t[0] != '-'))
    ensures Stoll(d + t) == if d != "" && Fits(Value(d)) then Some(Value(d)) else None
  {
    LeadingAll(d, t);
  }

  /** The text of an amount: a sign, digits, and perhaps a point and more digits. */
  function Written(negative: bool, q: string, point: bool, r: string): string { Sign(negative) + q + if point then "." + r else "" }

  /** What it stands for, in the smallest units. */
  function Meant(q: string, point: bool, r: string, p: nat): int
    requires AllDigits(q) && AllDigits(r) && (point ==> |r| <= p)
  {
    Value(q) * Pow10(p) + if point then Value(r) * Pow10(p - |r|) else 0
  }

  /** Every such text is read as what it stands for, unless that is above the largest amount, there are more digits behind the
      point than the precision, or a minus sign is followed by the point at once. */
  lemma ReadAsMeant(negative: bool, q: string, point: bool, r: string, p: nat)
    requires AllDigits(q) && AllDigits(r) && p <= MAX_PRECISION
    ensures Parsed(Written(negative, q, point, r), p) ==
            if (point && |r| > p) || (negative && point && q == "") || Meant(q, point, r, p) > MAX_SHARES then None
            else Some(if negative then -Meant(q, point, r, p) else Meant(q, point, r, p))
  {
    hide WholeValue, PartValue, WellFormed, Value, Pow10;
    var s := Written(negative, q, point, r);
    Characters(Sign(negative), q, if point then "." + r else "", r);
    WholeIs(negative, q, point, r, p);
    PartIs(negative, q, point, r, p);
    if point && |r| <= p { PartBelow(r, p); }
    ScaleBelow(p);
    MulMonotone(Value(q), 1, Pow10(p));
    if q == "" { NoDigits(q); assert 0 * Pow10(p) == 0; }
  }

  lemma ScaleBelow(p: nat)
    requires p <= MAX_PRECISION
    ensures 1 <= Pow10(p) <= MAX_SHARES
  {
    PowGrows(p, MAX_PRECISION);
    assert Pow10(3) == 1_000;
    PowAdds(3, 3);
    PowAdds(6, 6);
    PowAdds(12, 6);
  }

  lemma PartBelow(r: string, p: nat)
    requires AllDigits(r) && |r| <= p
    ensures Value(r) * Pow10(p - |r|) < Pow10(p)
  {
    hide Pow10, Value;
    ValueBelow(r);
    PowAdds(|r|, p - |r|);
    MulMonotone(Pow10(p - |r|), Value(r) + 1, Pow10(|r|));
  }

  lemma WholeIs(negative: bool, q: string, point: bool, r: string, p: nat)
    requires AllDigits(q) && AllDigits(r)
    ensures WholeValue(Written(negative, q, point, r), p) ==
            if q == "" then (if negative && point then None else Some(0))
            else if Fits(Value(q)) && Fits(Value(q) * Pow10(p)) then Some(Value(q) * Pow10(p)) else None
  {
    hide Stoll, Front, Value, Pow10;
    if point { FrontWithPoint(Sign(negative), q, r); } else { FrontWithout(Sign(negative), q); }
    assert q + "" == q;
    StollFits(q, if negative && point then "." else "");
  }

  lemma PartIs(negative: bool, q: string, point: bool, r: string, p: nat)
    requires AllDigits(q) && AllDigits(r) && p <= MAX_PRECISION
    ensures PartValue(Written(negative, q, point, r), p) ==
            if !point then Some(0) else if |r| > p then None else Some(Value(r) * Pow10(p - |r|))
  {
    hide Stoll, Find, Value, Pow10, WellFormed;
    Characters(Sign(negative), q, if point then "." + r else "", r);
    if point {
      var front := Sign(negative) + q;
      assert Written(negative, q, point, r) == front + "." + r;
      PointAt(front, r);
      if |r| <= p {
        var k := p - |r|;
        ValueOfZeros(r, k);
        PartBelow(r, p);
        ScaleBelow(p);
        assert r + Zeros(k) + "" == r + Zeros(k);
        StollFits(r + Zeros(k), "");
        if p == 0 { NoDigits(r); }
      }
    }
  }

  lemma NoDigits(r: string)
    requires r == ""
    ensures Value(r) == 0
  {
  }

  /** All texts the scan lets through are of this form, but for those with a minus sign that is not in front. */
  lemma Splits(s: string) returns (negative: bool, q: string, point: bool, r: string)
    requires WellFormed(s) && ('-' in s ==> s[0] == '-')
    ensures s == Written(negative, q, point, r) && AllDigits(q) && AllDigits(r)
  {
    hide WellFormed, Find, Sign;
    negative := '-' in s;
    var rest := if negative then s[1..] else s;
    OnlyPoint(s, negative, rest);
    var i := Find(rest, '.');
    point := i < |rest|;
    q, r := rest[..i], if point then rest[i + 1..] else "";
    Halves(rest, i);
    Joined(s, negative, rest, q, if point then "." + r else "");
  }

  lemma Halves(rest: string, i: nat)
    requires i <= |rest| && (i < |rest| ==> rest[i] == '.')
    ensures rest == rest[..i] + if i < |rest| then "." + rest[i + 1..] else ""
  {
  }

  lemma Joined(s: string, negative: bool, rest: string, q: string, tail: string)
    requires (negative ==> s != "" && s[0] == '-' && rest == s[1..]) && (!negative ==> rest == s) && rest == q + tail
    ensures s == Sign(negative) + q + tail
  {
  }

  lemma OnlyPoint(s: string, negative: bool, rest: string)
    requires WellFormed(s) && (negative <==> '-' in s) && (negative ==> s[0] == '-') && rest == if negative then s[1..] else s
    ensures forall k | 0 <= k < |rest| && k != Find(rest, '.') :: IsDigit(rest[k])
  {
    hide Find;
    var start, i := if negative then 1 else 0, Find(rest, '.');
    assert i < |rest| ==> s[start + i] == '.';
    forall k | 0 <= k < |rest| && k != i ensures IsDigit(rest[k]) { assert rest[k] == s[start + k]; }
  }

  /** A minus sign that is not in front is let through, and takes the first character away instead of itself. */
  lemma MinusInside()
    ensures WellFormed("5-3") && Parsed("5-3", 0) == Some(3)
  {
    var s := "5-3";
    assert s[0] == '5' && s[1] == '-' && s[2] == '3';
    assert Front(s) == "-3" by { assert s[1..] == "-3"; }
    assert LeadingDigits("3") == "3" by { assert "3"[1..] == ""; }
    assert "-3"[1..] == "3";
    assert Value("3") == 3 by { assert "3"[..0] == ""; }
    assert Stoll("-3") == Some(-3);
    assert '-' in s;
  }
}
