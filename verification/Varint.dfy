/** Unsigned varints, seven bits a byte, and how reading one can fail. */
module Varint {
  import opened ByteStrings
  import opened Wrappers

  const MAX_GROUPS := 5 // a shift of 28 bits is the last one allowed

  datatype Error =
    | TooLarge | Truncated | NumberTooLong | TooManyEntries | OutOfRange | BadStateLength | NotJson | NotAnObject
    | TrailingBytes

  // A value read, and the bytes behind it.
  datatype Read<+T> = Read(value: T, rest: Bytes)

  function Power128(k: nat): (p: nat)
    ensures p > 0
  {
    if k == 0 then 1 else 128 * Power128(k - 1)
  }

  function VarUint(n: nat): (s: Bytes)
    ensures |s| > 0
  {
    if n <= 0x7F then [n] else [0x80 + n % 0x80] + VarUint(n / 0x80)
  }

  // `groups` seven-bit groups have been read, making up `result`.
  function ReadGroups(s: Bytes, result: nat, groups: nat): (r: Result<Read<nat>, Error>)
    ensures r.Ok? ==> |r.value.rest| < |s|
    decreases |s|
  {
    if s == [] then Err(Truncated)
    else
      var sum := result + s[0] % 0x80 * Power128(groups);
      if s[0] < 0x80 then Ok(Read(sum, s[1..]))
      else if groups + 1 >= MAX_GROUPS then Err(NumberTooLong)
      else ReadGroups(s[1..], sum, groups + 1)
  }

  function ReadVarUint(s: Bytes): (r: Result<Read<nat>, Error>)
    ensures r.Ok? ==> |r.value.rest| < |s|
  {
    ReadGroups(s, 0, 0)
  }

  /** `_write_var_uint`. */
  method WriteVarUint(n: nat) returns (out: Bytes)
    ensures out == VarUint(n)
  {
    out := [];
    var left := n;
    while left > 0x7F
      invariant out + VarUint(left) == VarUint(n)
    {
      assert VarUint(left) == [0x80 + left % 0x80] + VarUint(left / 0x80);
      assert (out + [0x80 + left % 0x80]) + VarUint(left / 0x80) == out + VarUint(left);
      out := out + [0x80 + left % 0x80];
      left := left / 0x80;
    }
    out := out + [left];
  }

  /** `_read_var_uint`: never past the end, and at most five bytes. */
  method ReadVarUintAt(data: Bytes, start: nat) returns (r: Result<(nat, nat), Error>)
    requires start <= |data|
    ensures r.Ok? ==> start < r.value.1 <= |data| && r.value.1 <= start + MAX_GROUPS
    ensures match ReadVarUint(data[start..])
            case Ok(read) => r.Ok? && r.value.0 == read.value && data[r.value.1..] == read.rest
            case Err(e) => r == Err(e)
  {
    var result: nat, groups, pos := 0, 0, start;
    while true
      invariant groups < MAX_GROUPS && pos == start + groups && pos <= |data|
      invariant ReadVarUint(data[start..]) == ReadGroups(data[pos..], result, groups)
      decreases |data| - pos
    {
      if pos >= |data| {
        return Err(Truncated);
      }
      var byte := data[pos];
      assert data[pos..][1..] == data[pos + 1..];
      pos := pos + 1;
      result := result + byte % 0x80 * Power128(groups);
      if byte < 0x80 {
        return Ok((result, pos));
      }
      groups := groups + 1;
      if groups >= MAX_GROUPS {
        return Err(NumberTooLong);
      }
    }
  }

  lemma Regroup(n: nat, p: nat)
    ensures n % 0x80 * p + n / 0x80 * (0x80 * p) == n * p
  {
    assert n / 0x80 * (0x80 * p) == (n / 0x80 * 0x80) * p;
    assert (n % 0x80) * p + (n / 0x80 * 0x80) * p == (n % 0x80 + n / 0x80 * 0x80) * p;
  }

  // One group read, and the others still to come.
  lemma SumUp(n: nat, result: nat, groups: nat)
    ensures (result + n % 0x80 * Power128(groups)) + n / 0x80 * Power128(groups + 1) == result + n * Power128(groups)
  {
    Regroup(n, Power128(groups));
  }

  lemma LastGroup(n: nat, rest: Bytes, result: nat, groups: nat)
    requires n <= 0x7F && groups < MAX_GROUPS
    ensures n < Power128(MAX_GROUPS - groups)
    ensures ReadGroups(VarUint(n) + rest, result, groups) == Ok(Read(result + n * Power128(groups), rest))
  {
    Unfolded(n, rest);
    assert ([n] + rest)[1..] == rest;
    OneGroupLess(n, MAX_GROUPS - groups - 1);
  }

  lemma MoreGroups(n: nat, rest: Bytes, result: nat, groups: nat)
    requires n > 0x7F && groups < MAX_GROUPS
    ensures ReadGroups(VarUint(n) + rest, result, groups) ==
            if groups + 1 >= MAX_GROUPS then Err(NumberTooLong)
            else ReadGroups(VarUint(n / 0x80) + rest, result + n % 0x80 * Power128(groups), groups + 1)
  {
    Unfolded(n, rest);
    var tail := VarUint(n / 0x80) + rest;
    assert ([0x80 + n % 0x80] + tail)[1..] == tail;
  }

  lemma OneGroupLess(n: nat, k: nat)
    ensures n < Power128(k + 1) <==> n / 0x80 < Power128(k)
    ensures Power128(k + 1) == 0x80 * Power128(k) && Power128(0) == 1
  {
  }

  lemma Unfolded(n: nat, rest: Bytes)
    ensures n <= 0x7F ==> VarUint(n) + rest == [n] + rest
    ensures n > 0x7F ==> VarUint(n) + rest == [0x80 + n % 0x80] + (VarUint(n / 0x80) + rest)
  {
  }

  lemma {:induction false} GroupsReadBack(n: nat, rest: Bytes, result: nat, groups: nat)
    requires groups < MAX_GROUPS
    ensures ReadGroups(VarUint(n) + rest, result, groups) ==
            if n < Power128(MAX_GROUPS - groups) then Ok(Read(result + n * Power128(groups), rest))
            else Err(NumberTooLong)
    decreases n
  {
    if n <= 0x7F {
      LastGroup(n, rest, result, groups);
    } else {
      MoreGroups(n, rest, result, groups);
      OneGroupLess(n, MAX_GROUPS - groups - 1);
      if groups + 1 < MAX_GROUPS {
        GroupsReadBack(n / 0x80, rest, result + n % 0x80 * Power128(groups), groups + 1);
        SumUp(n, result, groups);
      }
    }
  }

  /** The reader inverts the writer below 2^35, whatever follows, and refuses from there on. */
  lemma VarUintReadBack(n: nat, rest: Bytes)
    ensures ReadVarUint(VarUint(n) + rest) == if n < 0x8_0000_0000 then Ok(Read(n, rest)) else Err(NumberTooLong)
  {
    GroupsReadBack(n, rest, 0, 0);
    assert Power128(5) == 128 * (128 * (128 * (128 * 128)));
  }

  // What follows is left alone.
  lemma {:induction false} GroupsWithMore(s: Bytes, more: Bytes, result: nat, groups: nat)
    requires ReadGroups(s, result, groups).Ok?
    ensures var read := ReadGroups(s, result, groups).value;
            ReadGroups(s + more, result, groups) == Ok(Read(read.value, read.rest + more))
    decreases |s|
  {
    assert (s + more)[0] == s[0] && (s + more)[1..] == s[1..] + more;
    if s[0] < 0x80 {
    } else {
      GroupsWithMore(s[1..], more, result + s[0] % 0x80 * Power128(groups), groups + 1);
    }
  }
}
