/**
 * Random identifier and random choice helpers of shared/util.ts.
 *
 * `Math.random` is not modelled: each call's outcome is a parameter.
 * A draw for `randomString` is the integer `floor(Math.random() * 256)`;
 * the choice for `randomArrayObject` is `floor(Math.random() * arr.length)`.
 */
module Util {
  import opened Wrappers

  /** The 62 characters room names are made of: upper case, lower case, digits. */
  const Alphabet: string :=
    "ABCDEFGHIJKLMNOPQRSTUVWXYZ" + "abcdefghijklmnopqrstuvwxyz" + "0123456789"

  /** The message of the error thrown for a zero size. */
  const ZeroSizeError: string := "Zero-length randomString is useless."

  /** Position in the alphabet picked by one draw. */
  function CharIndex(draw: nat): (k: nat)
    ensures k < |Alphabet| == 62
  {
    draw % |Alphabet|
  }

  /** The string the first `n` draws spell out, one character per draw. */
  function Code(draws: seq<nat>, n: nat): (s: string)
    requires n <= |draws|
    ensures |s| == n
    ensures forall k :: 0 <= k < n ==> s[k] in Alphabet
  {
    if n == 0 then "" else Code(draws, n - 1) + [Alphabet[CharIndex(draws[n - 1])]]
  }

  /**
   * randomString(size): a zero size throws; a negative size never enters the
   * loop and yields ""; otherwise one character is appended per iteration.
   */
  method RandomString(size: int, draws: seq<nat>) returns (r: Result<string, string>)
    requires size <= |draws|
    ensures r.Failure? <==> size == 0
    ensures r.Failure? ==> r.error == ZeroSizeError
    ensures size < 0 ==> r == Success("")
    ensures r.Success? ==> |r.value| == (if size < 0 then 0 else size)
    ensures r.Success? ==> forall k :: 0 <= k < |r.value| ==> r.value[k] in Alphabet
    ensures size > 0 ==> r.value == Code(draws, size)
  {
    if size == 0 {
      return Failure(ZeroSizeError);
    }
    var objectId: string := "";
    var i := 0;
    while i < size
      invariant 0 <= i && (size > 0 ==> i <= size) && (size <= 0 ==> i == 0)
      invariant objectId == Code(draws, i)
    {
      objectId := objectId + [Alphabet[CharIndex(draws[i])]];
      i := i + 1;
    }
    return Success(objectId);
  }

  /**
   * randomArrayObject(arr): the element at the drawn index, which is always
   * below the length; an empty array yields `undefined`.
   */
  function RandomArrayObject(arr: seq<string>, k: nat): (r: Option<string>)
    requires k < |arr| || k == 0
    ensures r.Some? <==> |arr| > 0
    ensures r.Some? ==> r.value in arr
  {
    if k < |arr| then Some(arr[k]) else None
  }

  /** A room name can hold lower-case letters: draw 26 picks 'a'. */
  lemma CodeMayBeLowerCase()
    ensures Code([26], 1) == "a"
  {
    assert CharIndex(26) == 26;
    assert Alphabet[26] == 'a';
    assert Code([26], 0) == "";
  }
}
