/**
 * Default identifiers of the `docs` and `chunks` tables
 * (contextual-rag/src/db/schemas.ts): a 16-letter string drawn from the
 * lowercase alphabet. `Math.random` is replaced by a supplied sequence of
 * draws, each already scaled to a letter index `floor(random * 26)`.
 */
module Schemas {

  import opened Wrappers

  /** `"abcdefghijklmnopqrstuvwxyz"`: the 26 letters from `a` to `z`, written as the code points in order. */
  const Alphabet: string := seq(26, i requires 0 <= i < 26 => ('a' as int + i) as char)

  /** The default length of `randomString()`. */
  const DefaultLength: nat := 16

  /** One random letter index: `Math.floor(Math.random() * 26)` lies in 0..25. */
  type Draw = n: nat | n < 26

  predicate IsLower(c: char) {
    'a' <= c <= 'z'
  }

  predicate AllLower(s: string) {
    forall i :: 0 <= i < |s| ==> IsLower(s[i])
  }

  /** The letters named by `draws`, in order. */
  function Letters(draws: seq<Draw>): (r: string)
    ensures |r| == |draws|
    ensures AllLower(r)
  {
    seq(|draws|, i requires 0 <= i < |draws| => Alphabet[draws[i]])
  }

  /** `randomString(length)`: fill a `length`-slot array with `chars[randomIndex]` and join it. */
  method RandomString(draws: seq<Draw>, length: nat) returns (s: string)
    requires |draws| >= length
    ensures s == Letters(draws[..length])
  {
    var resultArray := new char[length];
    for i := 0 to length
      invariant forall j :: 0 <= j < i ==> resultArray[j] == Alphabet[draws[j]]
    {
      var randomIndex := draws[i];
      resultArray[i] := Alphabet[randomIndex];
    }
    s := resultArray[..];
  }

  /** Different draws give different strings: the 26 letters are distinct. */
  lemma {:induction false} LettersInjective(a: seq<Draw>, b: seq<Draw>)
    requires Letters(a) == Letters(b)
    ensures a == b
  {
    assert |a| == |b|;
    forall i | 0 <= i < |a| ensures a[i] == b[i] {
      assert Letters(a)[i] == Letters(b)[i];
      AlphabetInjective(a[i], b[i]);
    }
  }

  lemma AlphabetInjective(x: Draw, y: Draw)
    requires Alphabet[x] == Alphabet[y]
    ensures x == y
  {
    assert Alphabet[x] as int == 'a' as int + x;
  }

  /** The `$defaultFn` of `docs.id` and `chunks.id`: a given id is kept, a missing one becomes `randomString()`. */
  function DefaultId(id: Option<string>, draws: seq<Draw>): (r: string)
    requires |draws| >= DefaultLength
    ensures id.Some? ==> r == id.value
    ensures id.None? ==> |r| == DefaultLength && AllLower(r)
  {
    match id
    case Some(given) => given
    case None => Letters(draws[..DefaultLength])
  }
}
