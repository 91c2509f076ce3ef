/**
  `parseRes`: the resolution menu's value `"WxH"` split on `x`, each piece
  passed to `Number`. `Number` is a parameter; a missing second piece is
  JavaScript's `undefined`, written `None`.
*/
module Resolution {
  import opened Common
  import Text

  /** `{ w, h }` as `parseRes` returns it. */
  datatype Size = Size(w: JsNumber, h: Option<JsNumber>)

  /** A separator occurs exactly when splitting gives more than one piece. */
  lemma {:induction false} SplitManyIff(s: string, sep: char)
    ensures |Text.Split(s, sep)| > 1 <==> sep in s
  {
    if s != [] {
      SplitManyIff(s[1..], sep);
      assert sep in s <==> s[0] == sep || sep in s[1..];
    }
  }

  /** `const [w, h] = value.split('x').map(Number)`: only the first two pieces are read. */
  function ParseRes(value: string, number: string -> JsNumber): (r: Size)
    ensures r.h.Some? <==> 'x' in value
  {
    var pieces := Text.Split(value, 'x');
    SplitManyIff(value, 'x');
    Size(number(pieces[0]), if |pieces| > 1 then Some(number(pieces[1])) else None)
  }

  /** The decimal digits of `n`, as the menu writes each dimension. */
  function Decimal(n: nat): (s: string)
    ensures |s| >= 1
    ensures forall i :: 0 <= i < |s| ==> '0' <= s[i] <= '9'
  {
    var digit := [(48 + n % 10) as char];
    if n < 10 then digit else Decimal(n / 10) + digit
  }

  /** The menu's value for a `w` by `h` canvas: `"1280x720"`. */
  function FormatRes(w: nat, h: nat): string {
    Decimal(w) + "x" + Decimal(h)
  }

  /**
    Reading back a formatted value gives both dimensions, provided `Number`
    reads decimal digits as their value.
  */
  lemma ParseFormatted(w: nat, h: nat, number: string -> JsNumber)
    requires number(Decimal(w)) == Finite(w as real)
    requires number(Decimal(h)) == Finite(h as real)
    ensures ParseRes(FormatRes(w, h), number) == Size(Finite(w as real), Some(Finite(h as real)))
  {
    assert 'x' !in Decimal(w) && 'x' !in Decimal(h);
    Text.SplitAtSeparator(Decimal(w), 'x', Decimal(h));
    Text.SplitNoSeparator(Decimal(h), 'x');
  }

  /** A value without `x` gives a width and an undefined height. */
  lemma ParseWithoutSeparator(a: string, number: string -> JsNumber)
    requires 'x' !in a
    ensures ParseRes(a, number) == Size(number(a), None)
  {
    Text.SplitNoSeparator(a, 'x');
  }

  /** Pieces after the second are ignored. */
  lemma ParseIgnoresExtraPieces(a: string, b: string, c: string, number: string -> JsNumber)
    requires 'x' !in a && 'x' !in b
    ensures ParseRes(a + "x" + b + "x" + c, number) == Size(number(a), Some(number(b)))
  {
    assert a + "x" + b + "x" + c == a + ['x'] + (b + ['x'] + c);
    Text.SplitAtSeparator(a, 'x', b + ['x'] + c);
    Text.SplitAtSeparator(b, 'x', c);
  }
}
