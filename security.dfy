/**
 * The two string helpers of the security manager: masking a secret for logs and
 * stripping characters that could inject markup.
 */
module Security {
  import opened Text

  /** Python `data[-k:]`: for `k == 0` this is the whole string, not the empty one. */
  function TailSlice(data: string, k: nat): (r: string)
    ensures k == 0 ==> r == data
    ensures 0 < k <= |data| ==> r == data[|data| - k..]
  {
    if k == 0 then data else if k <= |data| then data[|data| - k..] else data
  }

  /** `mask_sensitive_data(data, show_chars)`. */
  function MaskSensitiveData(data: string, show: nat := 4): (r: string)
    // too short to reveal anything: every character is starred
    ensures |data| <= 2 * show ==> |r| == |data| && forall i :: 0 <= i < |r| ==> r[i] == '*'
    // otherwise the first and last `show` characters survive and the middle is starred
    ensures show >= 1 && |data| > 2 * show ==>
      |r| == |data|
      && r[..show] == data[..show]
      && r[|data| - show..] == data[|data| - show..]
      && forall i :: show <= i < |data| - show ==> r[i] == '*'
    // `data[-0:]` is the whole string, so a zero `show` doubles the length
    ensures show == 0 && data != [] ==> |r| == 2 * |data| && r[|data|..] == data
  {
    if |data| <= show * 2 then Repeat('*', |data|)
    else data[..show] + Repeat('*', |data| - show * 2) + TailSlice(data, show)
  }

  /** The characters `sanitize_input` removes, in the order it removes them. */
  const Dangerous: seq<char> := ['<', '>', '&', '"', '\'', '`']

  /** `s` after removing, one after the other, every character of `cs`. */
  function RemoveAll(s: string, cs: seq<char>): (r: string)
    ensures forall c :: c in cs ==> c !in r
    ensures forall x :: x in r <==> x in s && x !in cs
    ensures (forall c :: c in cs ==> c !in s) ==> r == s
    decreases |cs|
  {
    if cs == [] then s else RemoveChar(RemoveAll(s, cs[..|cs| - 1]), cs[|cs| - 1])
  }

  /** What `sanitize_input` returns. */
  function Sanitized(s: string): (r: string)
    ensures forall c :: c in Dangerous ==> c !in r
    ensures r == [] || (!IsSpace(r[0]) && !IsSpace(r[|r| - 1]))
  {
    Strip(RemoveAll(s, Dangerous))
  }

  /** `sanitize_input(input_str)`: one pass per dangerous character, then `strip()`. */
  method SanitizeInput(input: string) returns (r: string)
    ensures r == Sanitized(input)
    ensures forall i :: 0 <= i < |r| ==> r[i] !in Dangerous
    ensures r == [] || (!IsSpace(r[0]) && !IsSpace(r[|r| - 1]))
  {
    var s := input;
    for k := 0 to |Dangerous|
      invariant s == RemoveAll(input, Dangerous[..k])
    {
      assert Dangerous[..k + 1][..k] == Dangerous[..k];
      s := RemoveChar(s, Dangerous[k]);
    }
    assert Dangerous[..|Dangerous|] == Dangerous;
    r := Strip(s);
  }

  /** Sanitising twice is sanitising once. */
  lemma SanitizeIdempotent(s: string)
    ensures Sanitized(Sanitized(s)) == Sanitized(s)
  {
    var t := Sanitized(s);
    assert forall c :: c in Dangerous ==> c !in t;
    assert RemoveAll(t, Dangerous) == t;
    StripOfStripped(t);
  }
}
