/** The binary form of awareness updates: a count, then per entry an id, a clock and a JSON state. */
module AwarenessCodec {
  import opened ByteStrings
  import opened Varint
  import opened Wrappers

  const MAX_UPDATE_BYTES := 8192
  const MAX_STATE_BYTES := 4096
  const MAX_ENTRIES_PER_UPDATE := 8
  const UINT32 := 0x1_0000_0000

  datatype Value = Text(text: string) | Number(number: int) | Other(code: nat)

  // The names the server knows, and any other.
  datatype Key = UserIdKey | UsernameKey | ColorKey | SelectionKey | CursorKey | AnyKey(name: string)

  // The dictionary a client announces.
  type State = map<Key, Value>

  datatype Json = Null | Object(fields: State) | Scalar(value: Value)

  // json.loads on UTF-8 bytes and json.dumps to them, None where they raise: text with a lone
  // surrogate can be loaded, but not encoded again.
  datatype JsonCodec = JsonCodec(loads: Bytes -> Option<Json>, dumps: Json -> Option<Bytes>)

  ghost predicate Behaves(json: JsonCodec) {
    forall value: Json :: json.dumps(value).Some? ==> json.loads(json.dumps(value).value) == Some(value)
  }

  // One such codec knows `null` and `{}`.
  lemma SomethingBehaves()
    ensures Behaves(JsonCodec(
      s => if s == [110] then Some(Null) else if s == [123, 125] then Some(Object(map[])) else None,
      value => if value == Null then Some([110]) else if value == Object(map[]) then Some([123, 125]) else None))
  {
  }

  datatype Entry = Entry(client: nat, clock: nat, state: Option<State>)

  // --- updates ------------------------------------------------------------------------

  function JsonOf(state: Option<State>): Json {
    if state.Some? then Object(state.value) else Null
  }

  predicate Encodable(json: JsonCodec, e: Entry) {
    json.dumps(JsonOf(e.state)).Some?
  }

  predicate AllEncodable(json: JsonCodec, entries: seq<Entry>) {
    forall i :: 0 <= i < |entries| ==> Encodable(json, entries[i])
  }

  function EntryBytes(json: JsonCodec, e: Entry): Bytes
    requires Encodable(json, e)
  {
    var raw := json.dumps(JsonOf(e.state)).value;
    VarUint(e.client) + (VarUint(e.clock) + (VarUint(|raw|) + raw))
  }

  function EntriesBytes(json: JsonCodec, entries: seq<Entry>): Bytes
    requires AllEncodable(json, entries)
  {
    if entries == [] then [] else EntryBytes(json, entries[0]) + EntriesBytes(json, entries[1..])
  }

  function Encoded(json: JsonCodec, entries: seq<Entry>): Option<Bytes> {
    if AllEncodable(json, entries) then Some(VarUint(|entries|) + EntriesBytes(json, entries)) else None
  }

  function ReadState(json: JsonCodec, s: Bytes, client: nat, clock: nat, length: nat): Result<Read<Entry>, Error> {
    if client >= UINT32 || clock >= UINT32 then Err(OutOfRange)
    else if length > MAX_STATE_BYTES || length > |s| then Err(BadStateLength)
    else
      match json.loads(s[..length])
      case None => Err(NotJson)
      case Some(Scalar(_)) => Err(NotAnObject)
      case Some(Null) => Ok(Read(Entry(client, clock, None), s[length..]))
      case Some(Object(fields)) => Ok(Read(Entry(client, clock, Some(fields)), s[length..]))
  }

  // Three numbers in a row.
  function ReadHeader(s: Bytes): Result<Read<(nat, nat, nat)>, Error> {
    var first := ReadVarUint(s);
    if first.Err? then Err(first.error)
    else
      var second := ReadVarUint(first.value.rest);
      if second.Err? then Err(second.error)
      else
        var third := ReadVarUint(second.value.rest);
        if third.Err? then Err(third.error)
        else Ok(Read((first.value.value, second.value.value, third.value.value), third.value.rest))
  }

  function ReadEntry(json: JsonCodec, s: Bytes): Result<Read<Entry>, Error> {
    var header := ReadHeader(s);
    if header.Err? then Err(header.error)
    else
      var (client, clock, length) := header.value.value;
      ReadState(json, header.value.rest, client, clock, length)
  }

  // What was read before, and what comes now.
  function Before(entries: seq<Entry>, r: Result<Read<seq<Entry>>, Error>): Result<Read<seq<Entry>>, Error> {
    if r.Err? then r else Ok(Read(entries + r.value.value, r.value.rest))
  }

  type Reader = Bytes -> Result<Read<Entry>, Error>

  function ReadMany(read: Reader, s: Bytes, count: nat): Result<Read<seq<Entry>>, Error>
    decreases count
  {
    if count == 0 then Ok(Read([], s))
    else
      var first := read(s);
      if first.Err? then Err(first.error)
      else Before([first.value.value], ReadMany(read, first.value.rest, count - 1))
  }

  function EntryReader(json: JsonCodec): Reader {
    (s: Bytes) => ReadEntry(json, s)
  }

  function ReadEntries(json: JsonCodec, s: Bytes, count: nat): Result<Read<seq<Entry>>, Error> {
    ReadMany(EntryReader(json), s, count)
  }

  function Decoded(json: JsonCodec, data: Bytes): Result<seq<Entry>, Error> {
    if |data| > MAX_UPDATE_BYTES then Err(TooLarge)
    else
      var count := ReadVarUint(data);
      if count.Err? then Err(count.error)
      else if count.value.value > MAX_ENTRIES_PER_UPDATE then Err(TooManyEntries)
      else
        var entries := ReadEntries(json, count.value.rest, count.value.value);
        if entries.Err? then Err(entries.error)
        else if entries.value.rest != [] then Err(TrailingBytes)
        else Ok(entries.value.value)
  }

  lemma BeforeTwice(a: seq<Entry>, b: seq<Entry>, r: Result<Read<seq<Entry>>, Error>)
    ensures Before(a, Before(b, r)) == Before(a + b, r)
    ensures Before([], r) == r
  {
    if r.Ok? {
      assert a + (b + r.value.value) == (a + b) + r.value.value;
      assert [] + r.value.value == r.value.value;
    }
  }

  /** One entry at `pos`. */
  method ReadEntryAt(json: JsonCodec, data: Bytes, start: nat) returns (r: Result<(Entry, nat), Error>)
    requires start <= |data|
    ensures r.Ok? ==> start < r.value.1 <= |data|
    ensures match ReadEntry(json, data[start..])
            case Ok(read) => r.Ok? && r.value.0 == read.value && data[r.value.1..] == read.rest
            case Err(e) => r == Err(e)
  {
    var client := ReadVarUintAt(data, start);
    if client.Err? {
      return Err(client.error);
    }
    var clock := ReadVarUintAt(data, client.value.1);
    if clock.Err? {
      return Err(clock.error);
    }
    var length := ReadVarUintAt(data, clock.value.1);
    if length.Err? {
      return Err(length.error);
    }
    var pos := length.value.1;
    if client.value.0 >= UINT32 || clock.value.0 >= UINT32 {
      return Err(OutOfRange);
    }
    if length.value.0 > MAX_STATE_BYTES || pos + length.value.0 > |data| {
      return Err(BadStateLength);
    }
    var end := pos + length.value.0;
    assert data[pos..][..length.value.0] == data[pos..end] && data[pos..][length.value.0..] == data[end..];
    match json.loads(data[pos..end])
    case None => return Err(NotJson);
    case Some(Scalar(_)) => return Err(NotAnObject);
    case Some(Null) => return Ok((Entry(client.value.0, clock.value.0, None), end));
    case Some(Object(fields)) => return Ok((Entry(client.value.0, clock.value.0, Some(fields)), end));
  }

  lemma EntriesStep(json: JsonCodec, s: Bytes, count: nat)
    requires count > 0
    ensures var first := ReadEntry(json, s);
            ReadEntries(json, s, count) == if first.Err? then Err(first.error)
            else Before([first.value.value], ReadEntries(json, first.value.rest, count - 1))
  {
  }

  lemma EntriesEnd(json: JsonCodec, s: Bytes, entries: seq<Entry>)
    ensures Before(entries, ReadEntries(json, s, 0)) == Ok(Read(entries, s))
  {
    assert entries + [] == entries;
  }

  lemma EntriesGoOn(json: JsonCodec, s: Bytes, count: nat, entries: seq<Entry>, e: Entry, rest: Bytes)
    requires count > 0 && ReadEntry(json, s) == Ok(Read(e, rest))
    ensures Before(entries, ReadEntries(json, s, count)) == Before(entries + [e], ReadEntries(json, rest, count - 1))
  {
    EntriesStep(json, s, count);
    BeforeTwice(entries, [e], ReadEntries(json, rest, count - 1));
  }

  lemma EntriesFail(json: JsonCodec, s: Bytes, count: nat, entries: seq<Entry>, error: Error)
    requires count > 0 && ReadEntry(json, s) == Err(error)
    ensures Before(entries, ReadEntries(json, s, count)) == Err(error)
  {
    EntriesStep(json, s, count);
  }

  // The next entry, and what is then left to read of the update.
  method ReadNextAt(json: JsonCodec, data: Bytes, pos: nat, ghost entries: seq<Entry>, ghost left: nat)
    returns (r: Result<(Entry, nat), Error>)
    requires pos <= |data| && left > 0
    ensures r.Ok? ==> pos < r.value.1 <= |data|
    ensures r.Ok? ==> Before(entries, ReadEntries(json, data[pos..], left)) ==
                      Before(entries + [r.value.0], ReadEntries(json, data[r.value.1..], left - 1))
    ensures r.Err? ==> Before(entries, ReadEntries(json, data[pos..], left)) == Err(r.error)
  {
    r := ReadEntryAt(json, data, pos);
    if r.Ok? {
      EntriesGoOn(json, data[pos..], left, entries, r.value.0, data[r.value.1..]);
    } else {
      EntriesFail(json, data[pos..], left, entries, r.error);
    }
  }

  // The entries of an update, one after the other.
  method ReadEntriesAt(json: JsonCodec, data: Bytes, start: nat, count: nat)
    returns (r: Result<(seq<Entry>, nat), Error>)
    requires start <= |data|
    ensures r.Ok? ==> r.value.1 <= |data|
    ensures match ReadEntries(json, data[start..], count)
            case Ok(read) => r.Ok? && r.value.0 == read.value && data[r.value.1..] == read.rest
            case Err(e) => r == Err(e)
  {
    var entries, pos := [], start;
    BeforeTwice([], [], ReadEntries(json, data[start..], count));
    for i := 0 to count
      invariant start <= pos <= |data|
      invariant ReadEntries(json, data[start..], count) == Before(entries, ReadEntries(json, data[pos..], count - i))
    {
      var entry := ReadNextAt(json, data, pos, entries, count - i);
      if entry.Err? {
        return Err(entry.error);
      }
      entries, pos := entries + [entry.value.0], entry.value.1;
    }
    EntriesEnd(json, data[pos..], entries);
    r := Ok((entries, pos));
  }

  /** `decode_update`: the count, that many entries, and then nothing. */
  method DecodeUpdate(json: JsonCodec, data: Bytes) returns (r: Result<seq<Entry>, Error>)
    ensures r == Decoded(json, data)
  {
    if |data| > MAX_UPDATE_BYTES {
      return Err(TooLarge);
    }
    assert data[0..] == data;
    var count := ReadVarUintAt(data, 0);
    if count.Err? {
      return Err(count.error);
    }
    if count.value.0 > MAX_ENTRIES_PER_UPDATE {
      return Err(TooManyEntries);
    }
    var entries := ReadEntriesAt(json, data, count.value.1, count.value.0);
    if entries.Err? {
      return Err(entries.error);
    }
    if entries.value.1 != |data| {
      return Err(TrailingBytes);
    }
    r := Ok(entries.value.0);
  }

  method EncodeEntry(json: JsonCodec, e: Entry) returns (out: Option<Bytes>)
    ensures out == if Encodable(json, e) then Some(EntryBytes(json, e)) else None
  {
    var raw := json.dumps(JsonOf(e.state));
    if raw.None? {
      return None;
    }
    var client := WriteVarUint(e.client);
    var clock := WriteVarUint(e.clock);
    var length := WriteVarUint(|raw.value|);
    out := Some(client + (clock + (length + raw.value)));
  }

  lemma BytesStep(json: JsonCodec, entries: seq<Entry>, i: nat)
    requires i < |entries| && AllEncodable(json, entries[..i]) && Encodable(json, entries[i])
    ensures AllEncodable(json, entries[..i + 1])
    ensures EntriesBytes(json, entries[..i + 1]) == EntriesBytes(json, entries[..i]) + EntryBytes(json, entries[i])
  {
    assert entries[..i + 1] == entries[..i] + [entries[i]];
    BytesAppend(json, entries[..i], entries[i]);
  }

  lemma {:induction false} BytesAppend(json: JsonCodec, entries: seq<Entry>, e: Entry)
    requires AllEncodable(json, entries) && Encodable(json, e)
    ensures AllEncodable(json, entries + [e])
    ensures EntriesBytes(json, entries + [e]) == EntriesBytes(json, entries) + EntryBytes(json, e)
    decreases |entries|
  {
    if entries == [] {
      assert entries + [e] == [e] && [e][1..] == [];
    } else {
      assert (entries + [e])[1..] == entries[1..] + [e];
      BytesAppend(json, entries[1..], e);
    }
  }

  /** `encode_update`; None where encoding a state raises. */
  method EncodeUpdate(json: JsonCodec, entries: seq<Entry>) returns (out: Option<Bytes>)
    ensures out == Encoded(json, entries)
  {
    var count := WriteVarUint(|entries|);
    var bytes := [];
    for i := 0 to |entries|
      invariant AllEncodable(json, entries[..i]) && bytes == EntriesBytes(json, entries[..i])
    {
      var entry := EncodeEntry(json, entries[i]);
      if entry.None? {
        return None;
      }
      BytesStep(json, entries, i);
      bytes := bytes + entry.value;
    }
    assert entries[..|entries|] == entries;
    out := Some(count + bytes);
  }

  // --- the round trip --------------------------------------------------------------------

  predicate Fits(json: JsonCodec, e: Entry) {
    && e.client < UINT32 && e.clock < UINT32
    && Encodable(json, e) && |json.dumps(JsonOf(e.state)).value| <= MAX_STATE_BYTES
  }

  predicate AllFit(json: JsonCodec, entries: seq<Entry>) {
    forall i :: 0 <= i < |entries| ==> Fits(json, entries[i])
  }

  predicate WithinLimits(json: JsonCodec, entries: seq<Entry>) {
    && |entries| <= MAX_ENTRIES_PER_UPDATE && AllFit(json, entries)
    && Encoded(json, entries).Some? && |Encoded(json, entries).value| <= MAX_UPDATE_BYTES
  }

  lemma HeaderReadBack(a: nat, b: nat, c: nat, rest: Bytes)
    ensures var r := ReadHeader(VarUint(a) + (VarUint(b) + (VarUint(c) + rest)));
            if a < 0x8_0000_0000 && b < 0x8_0000_0000 && c < 0x8_0000_0000 then r == Ok(Read((a, b, c), rest))
            else r.Err?
  {
    VarUintReadBack(a, VarUint(b) + (VarUint(c) + rest));
    VarUintReadBack(b, VarUint(c) + rest);
    VarUintReadBack(c, rest);
  }

  lemma EntryReadBack(json: JsonCodec, e: Entry, rest: Bytes)
    requires Behaves(json) && Encodable(json, e)
    ensures var r := ReadEntry(json, EntryBytes(json, e) + rest);
            if Fits(json, e) then r == Ok(Read(e, rest)) else r.Err?
  {
    var raw := json.dumps(JsonOf(e.state)).value;
    assert EntryBytes(json, e) + rest == VarUint(e.client) + (VarUint(e.clock) + (VarUint(|raw|) + (raw + rest)));
    HeaderReadBack(e.client, e.clock, |raw|, raw + rest);
    assert (raw + rest)[..|raw|] == raw && (raw + rest)[|raw|..] == rest;
    assert json.loads(raw) == Some(JsonOf(e.state));
  }

  lemma AllFitStep(json: JsonCodec, e: Entry, others: seq<Entry>, rest: Bytes)
    requires Encodable(json, e) && AllEncodable(json, others)
    ensures AllEncodable(json, [e] + others)
    ensures AllFit(json, [e] + others) <==> Fits(json, e) && AllFit(json, others)
    ensures EntriesBytes(json, [e] + others) + rest == EntryBytes(json, e) + (EntriesBytes(json, others) + rest)
    ensures Before([e], Ok(Read(others, rest))) == Ok(Read([e] + others, rest))
  {
    assert ([e] + others)[1..] == others;
    if AllFit(json, [e] + others) {
      assert ([e] + others)[0] == e;
      forall i | 0 <= i < |others|
        ensures Fits(json, others[i])
      {
        assert others[i] == ([e] + others)[i + 1];
      }
    }
  }

  lemma {:induction false} EntriesReadBack(json: JsonCodec, entries: seq<Entry>, rest: Bytes)
    requires Behaves(json) && AllEncodable(json, entries)
    ensures var r := ReadEntries(json, EntriesBytes(json, entries) + rest, |entries|);
            if AllFit(json, entries) then r == Ok(Read(entries, rest)) else r.Err?
    decreases |entries|
  {
    if entries == [] {
      assert EntriesBytes(json, entries) + rest == rest;
    } else {
      var e, others := entries[0], entries[1..];
      var behind := EntriesBytes(json, others) + rest;
      assert entries == [e] + others;
      AllFitStep(json, e, others, rest);
      EntriesStep(json, EntryBytes(json, e) + behind, |entries|);
      EntryReadBack(json, e, behind);
      EntriesReadBack(json, others, rest);
    }
  }

  /** Decoding what was encoded gives the same entries, exactly when they are within the limits. */
  lemma UpdateRoundTrip(json: JsonCodec, entries: seq<Entry>)
    requires Behaves(json) && Encoded(json, entries).Some?
    ensures var r := Decoded(json, Encoded(json, entries).value);
            if WithinLimits(json, entries) then r == Ok(entries) else r.Err?
  {
    var bytes := EntriesBytes(json, entries);
    VarUintReadBack(|entries|, bytes);
    assert bytes + [] == bytes;
    EntriesReadBack(json, entries, []);
  }

  // --- nothing may follow -------------------------------------------------------------------

  lemma EntryWithMore(json: JsonCodec, s: Bytes, more: Bytes)
    requires ReadEntry(json, s).Ok?
    ensures var read := ReadEntry(json, s).value;
            ReadEntry(json, s + more) == Ok(Read(read.value, read.rest + more))
  {
    var first := ReadVarUint(s).value;
    GroupsWithMore(s, more, 0, 0);
    var second := ReadVarUint(first.rest).value;
    GroupsWithMore(first.rest, more, 0, 0);
    var third := ReadVarUint(second.rest).value;
    GroupsWithMore(second.rest, more, 0, 0);
    var rest, length := third.rest, third.value;
    assert (rest + more)[..length] == rest[..length] && (rest + more)[length..] == rest[length..] + more;
  }

  // What a reader takes does not depend on what follows.
  ghost predicate LeavesTheRest(read: Reader) {
    forall s: Bytes, more: Bytes :: read(s).Ok? ==>
      read(s + more) == Ok(Read(read(s).value.value, read(s).value.rest + more))
  }

  lemma {:induction false} ManyWithMore(read: Reader, s: Bytes, more: Bytes, count: nat)
    requires LeavesTheRest(read) && ReadMany(read, s, count).Ok?
    ensures var r := ReadMany(read, s + more, count);
            r.Ok? && r.value.rest == ReadMany(read, s, count).value.rest + more
    decreases count
  {
    if count == 0 {
    } else {
      ManyWithMore(read, read(s).value.rest, more, count - 1);
    }
  }

  lemma EntriesWithMore(json: JsonCodec, s: Bytes, more: Bytes, count: nat)
    requires ReadEntries(json, s, count).Ok?
    ensures var r := ReadEntries(json, s + more, count);
            r.Ok? && r.value.rest == ReadEntries(json, s, count).value.rest + more
  {
    EntryReaderLeavesTheRest(json);
    ManyWithMore(EntryReader(json), s, more, count);
  }

  lemma EntryReaderLeavesTheRest(json: JsonCodec)
    ensures LeavesTheRest(EntryReader(json))
  {
    forall s: Bytes, more: Bytes | EntryReader(json)(s).Ok?
      ensures EntryReader(json)(s + more) ==
              Ok(Read(EntryReader(json)(s).value.value, EntryReader(json)(s).value.rest + more))
    {
      EntryWithMore(json, s, more);
    }
  }

  /** An accepted update is consumed to its last byte: nothing longer that begins with it is accepted. */
  lemma NothingMayFollow(json: JsonCodec, data: Bytes, more: Bytes)
    requires Decoded(json, data).Ok? && more != []
    ensures Decoded(json, data + more).Err?
  {
    GroupsWithMore(data, more, 0, 0);
    var count := ReadVarUint(data).value;
    EntriesWithMore(json, count.rest, more, count.value);
  }
}
