/**
 * The slice of JavaScript values that tool arguments can carry once they have
 * been cast with `as any`: what `String(v)` makes of them, which of them are
 * falsy, and plain objects read as their ordered list of own entries.
 */
module JsValues {

  /** A scalar JavaScript value. `Num` stands for a safe integer, below 2^53 in magnitude (see README). */
  datatype JsValue = Undefined | Null | Bool(b: bool) | Num(n: int) | Str(s: string)

  /** A value thrown inside the call handler: an `Error` instance or anything else. */
  datatype Thrown = ErrorObject(message: string) | NonError

  predicate IsDigit(c: char) {
    '0' <= c <= '9'
  }

  function DigitChar(d: nat): (c: char)
    requires d < 10
    ensures IsDigit(c) && c as int - '0' as int == d
  {
    ('0' as int + d) as char
  }

  /** Decimal text of a natural number, most significant digit first, no leading zeros. */
  function NatToText(n: nat): (s: string)
    ensures |s| >= 1
    ensures forall i :: 0 <= i < |s| ==> IsDigit(s[i])
    ensures s[0] == '0' ==> n == 0
    decreases n
  {
    if n < 10 then [DigitChar(n)] else NatToText(n / 10) + [DigitChar(n % 10)]
  }

  /** The number a non-empty run of decimal digits denotes. */
  function DigitsValue(s: string): nat
    requires forall i :: 0 <= i < |s| ==> IsDigit(s[i])
  {
    if s == [] then 0
    else
      assert IsDigit(s[|s| - 1]);
      DigitsValue(s[..|s| - 1]) * 10 + (s[|s| - 1] as int - '0' as int)
  }

  /** `String(n)` for a safe integer: an optional minus sign, then the decimal digits. */
  function NumberToText(n: int): string {
    if n < 0 then "-" + NatToText(-n) else NatToText(n)
  }

  /** An optional minus sign followed by decimal digits, or digits alone. */
  predicate IsNumberText(s: string) {
    && |s| >= 1
    && (s[0] == '-' || IsDigit(s[0]))
    && (forall i :: 1 <= i < |s| ==> IsDigit(s[i]))
  }

  /** Reads back the text `NumberToText` produces. */
  function TextToNumber(s: string): int
    requires IsNumberText(s)
  {
    if s[0] == '-' then -(DigitsValue(s[1..]) as int) else DigitsValue(s)
  }

  lemma {:induction false} NatToTextValue(n: nat)
    ensures DigitsValue(NatToText(n)) == n
    decreases n
  {
    if n >= 10 {
      var s := NatToText(n);
      NatToTextValue(n / 10);
      assert s[..|s| - 1] == NatToText(n / 10);
    }
  }

  /** Safe integers survive `String(v)` as decimal text: the text reads back as the same number. */
  lemma NumberToTextRoundTrip(n: int)
    ensures IsNumberText(NumberToText(n)) && TextToNumber(NumberToText(n)) == n
  {
    if n < 0 {
      NatToTextValue(-n);
      assert NumberToText(n)[1..] == NatToText(-n);
    } else {
      NatToTextValue(n);
    }
  }

  /** `String(v)`. */
  function ToText(v: JsValue): string {
    match v
    case Undefined => "undefined"
    case Null => "null"
    case Bool(b) => if b then "true" else "false"
    case Num(n) => NumberToText(n)
    case Str(s) => s
  }

  /** JavaScript truthiness, as tested by `v ? … : …`. */
  predicate Truthy(v: JsValue) {
    match v
    case Undefined => false
    case Null => false
    case Bool(b) => b
    case Num(n) => n != 0
    case Str(s) => s != ""
  }

  function Keys<V>(es: seq<(string, V)>): (ks: seq<string>)
    ensures |ks| == |es|
    ensures forall i :: 0 <= i < |es| ==> ks[i] == es[i].0
  {
    if es == [] then [] else [es[0].0] + Keys(es[1..])
  }

  predicate DistinctKeys<V>(es: seq<(string, V)>) {
    forall i, j :: 0 <= i < j < |es| ==> es[i].0 != es[j].0
  }

  /** `xs` is `ys` with some elements dropped and the rest kept in order. */
  predicate Subsequence<T(==)>(xs: seq<T>, ys: seq<T>)
    decreases |ys|
  {
    if xs == [] then true
    else if ys == [] then false
    else if xs[0] == ys[0] then Subsequence(xs[1..], ys[1..])
    else Subsequence(xs, ys[1..])
  }

  /**
   * A plain object, as `Object.entries` lists it: own keys in order, each once.
   */
  type JsObject = o: seq<(string, JsValue)> | DistinctKeys(o) witness []

  /** Property read `o[k]`: `undefined` when the key is missing. */
  function Get(o: JsObject, k: string): (v: JsValue)
    ensures k !in Keys(o) ==> v == Undefined
    ensures forall i :: 0 <= i < |o| && o[i].0 == k ==> v == o[i].1
  {
    if o == [] then Undefined else if o[0].0 == k then o[0].1 else Get(o[1..], k)
  }

  /** The `rest` of `const { k, ...rest } = o`. */
  function Omit(o: JsObject, k: string): (r: JsObject)
    ensures k !in Keys(r)
    ensures forall k' :: k' in Keys(r) <==> k' in Keys(o) && k' != k
    ensures forall k' :: k' != k ==> Get(r, k') == Get(o, k')
    ensures Subsequence(Keys(r), Keys(o))
  {
    if o == [] then []
    else
      var tail := Omit(o[1..], k);
      if o[0].0 == k then tail
      else
        assert o[0].0 !in Keys(o[1..]);
        SubsequenceKeys(tail, o[1..]);
        assert o[0].0 !in Keys(tail);
        var r := [o[0]] + tail;
        assert Keys(r)[1..] == Keys(tail);
        r
  }

  /**
   * `Object.entries(o).filter(([_, v]) => v !== undefined).map(([k, v]) => [k, String(v)])`:
   * every key whose value is not `undefined`, in the object's order, with its value as text.
   */
  function Stringified(o: JsObject): (r: seq<(string, string)>)
    ensures DistinctKeys(r)
    ensures forall k :: k in Keys(r) <==> Get(o, k) != Undefined
    ensures forall i :: 0 <= i < |r| ==> r[i].1 == ToText(Get(o, r[i].0))
    ensures Subsequence(Keys(r), Keys(o))
  {
    if o == [] then []
    else
      var tail := Stringified(o[1..]);
      assert o[0].0 !in Keys(o[1..]);
      if o[0].1 == Undefined then tail
      else
        var r := [(o[0].0, ToText(o[0].1))] + tail;
        assert Keys(r)[1..] == Keys(tail);
        r
  }

  /** Keys drawn in order from a list without repeats are themselves without repeats and come from it. */
  lemma {:induction false} SubsequenceKeys<V, W>(xs: seq<(string, V)>, ys: seq<(string, W)>)
    requires Subsequence(Keys(xs), Keys(ys))
    ensures forall k :: k in Keys(xs) ==> k in Keys(ys)
    decreases |ys|
  {
    if xs != [] && ys != [] {
      assert Keys(xs)[1..] == Keys(xs[1..]);
      assert Keys(ys)[1..] == Keys(ys[1..]);
      if xs[0].0 == ys[0].0 {
        SubsequenceKeys(xs[1..], ys[1..]);
      } else {
        SubsequenceKeys(xs, ys[1..]);
      }
    }
  }

  lemma {:induction false} SubsequenceTail<T>(xs: seq<T>, ys: seq<T>)
    requires xs != [] && Subsequence(xs, ys)
    ensures Subsequence(xs[1..], ys)
    decreases |ys|, 1
  {
    if xs[0] == ys[0] {
      SubsequenceCons(xs[1..], ys);
    } else {
      SubsequenceTail(xs, ys[1..]);
      SubsequenceCons(xs[1..], ys);
    }
  }

  lemma {:induction false} SubsequenceCons<T>(xs: seq<T>, ys: seq<T>)
    requires ys != [] && Subsequence(xs, ys[1..])
    ensures Subsequence(xs, ys)
    decreases |ys|, 0
  {
    if xs != [] && xs[0] == ys[0] {
      SubsequenceTail(xs, ys[1..]);
    }
  }

  lemma {:induction false} SubsequenceTransitive<T>(xs: seq<T>, ys: seq<T>, zs: seq<T>)
    requires Subsequence(xs, ys) && Subsequence(ys, zs)
    ensures Subsequence(xs, zs)
    decreases |zs|
  {
    if xs != [] {
      assert ys != [] && zs != [];
      if ys[0] == zs[0] {
        if xs[0] == ys[0] {
          SubsequenceTransitive(xs[1..], ys[1..], zs[1..]);
        } else {
          SubsequenceTransitive(xs, ys[1..], zs[1..]);
          SubsequenceCons(xs, zs);
        }
      } else {
        SubsequenceTransitive(xs, ys, zs[1..]);
        SubsequenceCons(xs, zs);
      }
    }
  }

  lemma OmitGet(o: JsObject, idKey: string, k: string)
    requires k != idKey
    ensures Get(Omit(o, idKey), k) == Get(o, k)
  {
  }

  /** Nothing of `o` survives the filter exactly when every value of `o` is `undefined`. */
  lemma StringifiedEmpty(o: JsObject)
    ensures Stringified(o) == [] <==> NoneDefined(o)
  {
    var r := Stringified(o);
    if r != [] {
      assert r[0].0 in Keys(r);
    }
  }

  /** Every key of `o` other than `idKey` reads as `undefined`. */
  ghost predicate NoneDefinedExcept(o: JsObject, idKey: string) {
    forall k :: k != idKey ==> Get(o, k) == Undefined
  }

  ghost predicate NoneDefined(o: JsObject) {
    forall k :: Get(o, k) == Undefined
  }

  lemma OmitNoneDefined(o: JsObject, idKey: string)
    ensures NoneDefined(Omit(o, idKey)) <==> NoneDefinedExcept(o, idKey)
  {
    if NoneDefined(Omit(o, idKey)) {
      OmitNoneDefinedBack(o, idKey);
    }
  }

  lemma OmitNoneDefinedBack(o: JsObject, idKey: string)
    requires NoneDefined(Omit(o, idKey))
    ensures NoneDefinedExcept(o, idKey)
  {
    forall k | k != idKey ensures Get(o, k) == Undefined {
      OmitGet(o, idKey, k);
    }
  }
}
