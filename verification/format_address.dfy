/** `formatAddress` of `lib/utils.ts`: the head and tail of an address around
    an ellipsis. */
module FormatAddress {
  import opened Strings

  function Min(a: nat, b: nat): nat {
    if a <= b then a else b
  }

  /** `address.slice(-end)`: the last `end` characters, and the whole string
      for `end == 0`, since `-0` is `0`. */
  function Tail(address: string, end: nat): (r: string)
    ensures end == 0 ==> r == address
    ensures 0 < end <= |address| ==> |r| == end
    ensures end > |address| ==> r == address
    ensures |r| <= |address| && r == address[|address| - |r|..]
  {
    if end == 0 || end > |address| then address else address[|address| - end..]
  }

  /** `formatAddress(address, start, end)` with non-negative bounds. */
  function Format(address: string, start: nat, end: nat): (r: string)
    ensures !Truthy(address) ==> r == "No address found"
    ensures Truthy(address) ==>
      |r| >= Min(start, |address|) + 3
      && StartsWith(address, r[..Min(start, |address|)])
      && r[Min(start, |address|)..Min(start, |address|) + 3] == "..."
      && r[Min(start, |address|) + 3..] == Tail(address, end)
  {
    if !Truthy(address) then "No address found"
    else address[..Min(start, |address|)] + "..." + Tail(address, end)
  }

  /** `formatAddress(address)` with the default bounds 4 and 4. */
  function FormatDefault(address: string): string {
    Format(address, 4, 4)
  }

  /** For an address longer than both bounds, the result has exactly
      `start + end + 3` characters, begins with the address's first `start`
      and ends with its last `end`. */
  lemma LongAddressShape(address: string, start: nat, end: nat)
    requires |address| > start + end && end > 0
    ensures var r := Format(address, start, end);
      |r| == start + end + 3 && StartsWith(r, address[..start])
      && r[|r| - end..] == address[|address| - end..]
  {
    var r := Format(address, start, end);
    assert r == address[..start] + "..." + address[|address| - end..];
  }

  /** With `end == 0` the tail repeats the whole address. */
  lemma ZeroEndRepeatsAddress(address: string, start: nat)
    requires Truthy(address)
    ensures Format(address, start, 0) == address[..Min(start, |address|)] + "..." + address
  {
  }

  /** The default rendering of a 56-character Stellar key is 11 characters. */
  lemma DefaultKeyLength(address: string)
    requires |address| == 56
    ensures |FormatDefault(address)| == 11
  {
    LongAddressShape(address, 4, 4);
  }
}
