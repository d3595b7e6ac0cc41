/** What the source takes from Go's fmt package: `%d` of an `int`, and the
    item route `fmt.Sprintf("%s%d/", basePath, id)` every service builds.
    Each formatter has a parser beside it, and the lemmas show that the
    parser recovers the number, so a route names exactly one id. */
module Fmt {
  import opened Wrappers

  predicate IsDigit(c: char) { '0' <= c <= '9' }

  function Digit(d: nat): (c: char)
    requires d < 10
    ensures IsDigit(c) && (c as int) - ('0' as int) == d
  {
    (('0' as int) + d) as char
  }

  /** Base-10 digits of `n`, most significant first, no leading zero. */
  function Decimal(n: nat): (s: string)
    decreases n
  {
    if n < 10 then [Digit(n)] else Decimal(n / 10) + [Digit(n % 10)]
  }


  /** The number a non-empty digit string denotes. */
  function DigitsValue(s: string): nat
    requires forall k :: 0 <= k < |s| ==> IsDigit(s[k])
    decreases |s|
  {
    if s == [] then 0
    else
      var last := s[|s| - 1];
      assert IsDigit(last);
      DigitsValue(s[..|s| - 1]) * 10 + ((last as int) - ('0' as int))
  }

  /** The canonical digit strings: non-empty, digits only, no leading zero. */
  predicate Canonical(s: string)
  {
    && |s| > 0
    && (forall k :: 0 <= k < |s| ==> IsDigit(s[k]))
    && (s[0] == '0' ==> |s| == 1)
  }

  /** Reads back what `FormatInt` writes; anything else is `None`. */
  function ParseInt(s: string): Option<int>
  {
    if |s| > 0 && s[0] == '-' then
      var t := s[1..];
      if Canonical(t) && t != "0" then Some(0 - DigitsValue(t) as int) else None
    else if Canonical(s) then Some(DigitsValue(s))
    else None
  }

  lemma {:induction false} DecimalCanonical(n: nat)
    ensures Canonical(Decimal(n))
    ensures Decimal(n) == "0" <==> n == 0
    ensures DigitsValue(Decimal(n)) == n
    decreases n
  {
    if n >= 10 {
      DecimalCanonical(n / 10);
      var s := Decimal(n);
      var p := Decimal(n / 10);
      assert s == p + [Digit(n % 10)];
      assert s[..|s| - 1] == p;
      assert s[0] == p[0];
      assert |s| > 1;
    }
  }

  /** `fmt.Sprintf("%d", i)`: a minus sign for negative values, then the
      digits. `ParseInt` reads every such text back, negative ones included. */
  function FormatInt(i: int): (s: string)
    ensures ParseInt(s) == Some(i)
  {
    if i < 0 then
      DecimalCanonical(-i);
      var s := "-" + Decimal(-i);
      assert s[0] == '-' && s[1..] == Decimal(-i);
      s
    else
      DecimalCanonical(i);
      Decimal(i)
  }

  /** `%d` is undone by `ParseInt`, for every int, negative ones included. */
  lemma FormatIntRoundTrip(i: int)
    ensures ParseInt(FormatInt(i)) == Some(i)
  {
    if i < 0 {
      DecimalCanonical(-i);
      var s := FormatInt(i);
      assert s[0] == '-' && s[1..] == Decimal(-i);
    } else {
      DecimalCanonical(i);
      assert FormatInt(i)[0] != '-';
    }
  }

  /** Distinct ints print differently. */
  lemma FormatIntInjective(i: int, j: int)
    ensures FormatInt(i) == FormatInt(j) <==> i == j
  {
    FormatIntRoundTrip(i);
    FormatIntRoundTrip(j);
  }

  /** The id an item route under `base` names, if `path` is one. */
  function ItemIdOf(base: string, path: string): Option<int>
  {
    if |path| > |base| && path[..|base|] == base && path[|path| - 1] == '/'
    then ParseInt(path[|base|..|path| - 1])
    else None
  }

  /** `fmt.Sprintf("%s%d/", base, id)`: the route of one item under `base`,
      which keeps `base` as its prefix and names exactly `id`. */
  function ItemPath(base: string, id: int): (p: string)
    ensures ItemIdOf(base, p) == Some(id)
  {
    var f := FormatInt(id);
    var p := base + f + "/";
    assert p[..|base|] == base;
    assert p[|base|..|p| - 1] == f;
    p
  }

  /** The item route keeps `base` as its prefix, ends in a slash, and names `id`. */
  lemma ItemPathRoundTrip(base: string, id: int)
    ensures ItemIdOf(base, ItemPath(base, id)) == Some(id)
  {
    var p := ItemPath(base, id);
    var f := FormatInt(id);
    FormatIntRoundTrip(id);
    assert p[..|base|] == base;
    assert p[|base|..|p| - 1] == f;
  }

  /** The collection route is never an item route. */
  lemma ItemPathIsNotCollection(base: string, id: int)
    ensures ItemPath(base, id) != base
    ensures ItemIdOf(base, base) == None
  {
    var f := FormatInt(id);
    if id < 0 { DecimalCanonical(-id); } else { DecimalCanonical(id); }
    assert |ItemPath(base, id)| == |base| + |f| + 1;
  }

  /** Two item routes under the same base are equal exactly when their ids are. */
  lemma ItemPathInjective(base: string, i: int, j: int)
    ensures ItemPath(base, i) == ItemPath(base, j) <==> i == j
  {
    ItemPathRoundTrip(base, i);
    ItemPathRoundTrip(base, j);
  }

  /** `fmt.Sprintf(format, args...)` for `int` arguments and formats whose
      only verbs are `%d` and `%%`; None for a format with any other verb,
      flag or width, which this model does not cover. A `%d` with no
      argument left writes `%!d(MISSING)`, a `%` ending the format writes
      `%!(NOVERB)`, and unused arguments are listed after the text. */
  function Sprintf(format: string, args: seq<int>): (r: Option<string>)
    ensures Plain(format) ==> r == Some(format + Extra(args))
    decreases |format|
  {
    if format == [] then
      Concat(format, Extra(args));
      Some(Extra(args))
    else if format[0] != '%' then
      PlainTail(format);
      Concat(format, Extra(args));
      Prefix([format[0]], Sprintf(format[1..], args))
    else
      assert !Plain(format);
      if |format| == 1 then Some("%!(NOVERB)" + Extra(args))
      else if format[1] == '%' then Prefix("%", Sprintf(format[2..], args))
      else if format[1] == 'd' then
        if args == [] then Prefix("%!d(MISSING)", Sprintf(format[2..], args))
        else Prefix(FormatInt(args[0]), Sprintf(format[2..], args[1..]))
      else None
  }

  /** Text without `%`, which formats as itself. */
  predicate Plain(s: string)
  {
    forall k :: 0 <= k < |s| ==> s[k] != '%'
  }

  lemma PlainTail(s: string)
    requires s != []
    ensures Plain(s) ==> Plain(s[1..])
  {
  }

  lemma Concat(s: string, e: string)
    ensures s == [] ==> s + e == e
    ensures s != [] ==> [s[0]] + (s[1..] + e) == s + e
  {
    if s != [] {
      assert s == [s[0]] + s[1..];
    }
  }

  function Prefix(p: string, r: Option<string>): Option<string>
  {
    if r.Some? then Some(p + r.value) else None
  }

  /** What Sprintf appends for arguments no verb used: `%!(EXTRA int=1, int=2)`. */
  function Extra(args: seq<int>): string
  {
    if args == [] then "" else "%!(EXTRA " + ExtraList(args) + ")"
  }

  function ExtraList(args: seq<int>): string
    requires args != []
  {
    "int=" + FormatInt(args[0]) + if |args| == 1 then "" else ", " + ExtraList(args[1..])
  }

  /** A character other than `%` is copied unchanged. */
  lemma SprintfChar(c: char, rest: string, args: seq<int>)
    requires c != '%'
    ensures Sprintf([c] + rest, args) == Prefix([c], Sprintf(rest, args))
  {
    assert ([c] + rest)[0] == c && ([c] + rest)[1..] == rest;
  }

  /** `%d` writes its argument in decimal. */
  lemma SprintfInt(rest: string, i: int, args: seq<int>)
    ensures Sprintf("%d" + rest, [i] + args) == Prefix(FormatInt(i), Sprintf(rest, args))
  {
    var f := "%d" + rest;
    assert f[0] == '%' && f[1] == 'd' && f[2..] == rest;
    assert ([i] + args)[0] == i && ([i] + args)[1..] == args;
  }

  lemma PrefixPrefix(a: string, b: string, r: Option<string>)
    ensures Prefix(a, Prefix(b, r)) == Prefix(a + b, r)
  {
    if r.Some? {
      assert a + (b + r.value) == (a + b) + r.value;
    }
  }

  /** `%d` with no argument left writes `%!d(MISSING)`. */
  lemma SprintfMissingInt(rest: string)
    ensures Sprintf("%d" + rest, []) == Prefix("%!d(MISSING)", Sprintf(rest, []))
  {
    var f := "%d" + rest;
    assert f[0] == '%' && f[1] == 'd' && f[2..] == rest;
  }

  /** Format text without `%` is copied unchanged. */
  lemma {:induction false} SprintfPlain(p: string, rest: string, args: seq<int>)
    requires forall k :: 0 <= k < |p| ==> p[k] != '%'
    ensures Sprintf(p + rest, args) == Prefix(p, Sprintf(rest, args))
    decreases |p|
  {
    if p == [] {
      assert p + rest == rest;
      var r := Sprintf(rest, args);
      if r.Some? {
        assert p + r.value == r.value;
      }
    } else {
      calc {
        Sprintf(p + rest, args);
        { assert p + rest == [p[0]] + (p[1..] + rest); }
        Sprintf([p[0]] + (p[1..] + rest), args);
        { SprintfChar(p[0], p[1..] + rest, args); }
        Prefix([p[0]], Sprintf(p[1..] + rest, args));
        { SprintfPlain(p[1..], rest, args); }
        Prefix([p[0]], Prefix(p[1..], Sprintf(rest, args)));
        { PrefixPrefix([p[0]], p[1..], Sprintf(rest, args)); assert [p[0]] + p[1..] == p; }
        Prefix(p, Sprintf(rest, args));
      }
    }
  }

  lemma Associative(a: string, b: string, c: string)
    ensures a + (b + c) == a + b + c
  {
  }

  /** Plain text with no arguments formats as itself. */
  lemma SprintfText(text: string)
    requires forall k :: 0 <= k < |text| ==> text[k] != '%'
    ensures Sprintf(text, []) == Some(text)
  {
    SprintfPlain(text, [], []);
    assert text + [] == text;
    assert Sprintf([], []) == Some("");
    assert text + "" == text;
  }

  /** One `%d` between plain text formats its one argument there. */
  lemma SprintfOneInt(prefix: string, suffix: string, i: int)
    requires forall k :: 0 <= k < |prefix| ==> prefix[k] != '%'
    requires forall k :: 0 <= k < |suffix| ==> suffix[k] != '%'
    ensures Sprintf(prefix + "%d" + suffix, [i]) == Some(prefix + FormatInt(i) + suffix)
  {
    assert prefix + "%d" + suffix == prefix + ("%d" + suffix);
    SprintfPlain(prefix, "%d" + suffix, [i]);
    SprintfInt(suffix, i, []);
    assert [i] + [] == [i];
    SprintfText(suffix);
    assert prefix + (FormatInt(i) + suffix) == prefix + FormatInt(i) + suffix;
  }

  /** One `%d` between plain text, with no argument, reports the missing one there. */
  lemma SprintfMissing(prefix: string, suffix: string)
    requires forall k :: 0 <= k < |prefix| ==> prefix[k] != '%'
    requires forall k :: 0 <= k < |suffix| ==> suffix[k] != '%'
    ensures Sprintf(prefix + "%d" + suffix, []) == Some(prefix + "%!d(MISSING)" + suffix)
  {
    assert prefix + "%d" + suffix == prefix + ("%d" + suffix);
    SprintfPlain(prefix, "%d" + suffix, []);
    SprintfMissingInt(suffix);
    SprintfText(suffix);
    Associative(prefix, "%!d(MISSING)", suffix);
  }
}
