/**
 * The random identifiers of the processor and the storage manager: 32 characters drawn
 * one at a time from "0123456789abcdef". The random source is a nondeterministic choice.
 */
module HexId {

  const HexAlphabet := "0123456789abcdef"
  const IdLength := 32

  predicate IsHexDigit(c: char) {
    '0' <= c <= '9' || 'a' <= c <= 'f'
  }

  /** The shape of every generated identifier. */
  predicate IsHexId(s: string) {
    |s| == IdLength && forall i :: 0 <= i < |s| ==> IsHexDigit(s[i])
  }

  /** `generateChunkId` / `generateUniqueId`: 32 draws of `hex[dis(gen)]` with `dis` uniform on 0..15. */
  method RandomHexId() returns (id: string)
    ensures IsHexId(id)
  {
    id := "";
    var i := 0;
    while i < IdLength
      invariant 0 <= i <= IdLength && |id| == i
      invariant forall k :: 0 <= k < |id| ==> IsHexDigit(id[k])
    {
      var d :| 0 <= d < 16;
      id := id + [HexAlphabet[d]];
      i := i + 1;
    }
  }

  /** An identifier never contains the '_' that separates it from a file name, nor a '/'. */
  lemma HexIdHasNoSeparator(s: string)
    requires IsHexId(s)
    ensures '_' !in s && '/' !in s && s != []
  {
  }
}
