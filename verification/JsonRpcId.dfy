/** The byte scanner for JSON-RPC ids in src/testing.rs. */
module JsonRpcId {
  import opened Prelude

  const QUOTE: Byte := 0x22
  const COLON: Byte := 0x3A
  const ID_KEY: Bytes := [0x22, 0x69, 0x64, 0x22]                                  // "id"
  const RESULT_KEY: Bytes := [0x22, 0x72, 0x65, 0x73, 0x75, 0x6C, 0x74, 0x22]       // "result"
  const ERROR_KEY: Bytes := [0x22, 0x65, 0x72, 0x72, 0x6F, 0x72, 0x22]              // "error"

  predicate IsSpace(b: Byte) { b == 0x20 || b == 0x0A || b == 0x0D || b == 0x09 }

  predicate IsDigit(b: Byte) { 0x30 <= b <= 0x39 }

  predicate OccursAt(data: Bytes, needle: Bytes, i: nat) {
    i + |needle| <= |data| && data[i..i + |needle|] == needle
  }

  /** `memmem`. */
  predicate Contains(data: Bytes, needle: Bytes) {
    exists i :: 0 <= i <= |data| && OccursAt(data, needle, i)
  }

  // ---- Decimal numbers ----

  function DigitValue(b: Byte): nat
    requires IsDigit(b)
  {
    var v: int := b;
    v - 0x30
  }

  function Value(digits: Bytes): nat
    requires forall i :: 0 <= i < |digits| ==> IsDigit(digits[i])
  {
    if digits == [] then 0
    else Value(digits[..|digits| - 1]) * 10 + DigitValue(digits[|digits| - 1])
  }

  function Decimal(n: nat): (r: Bytes)
    ensures |r| > 0 && forall i :: 0 <= i < |r| ==> IsDigit(r[i])
  {
    if n < 10 then [0x30 + n] else Decimal(n / 10) + [0x30 + n % 10]
  }

  lemma {:induction false} ValueOfDecimal(n: nat)
    ensures Value(Decimal(n)) == n
  {
    if n >= 10 {
      ValueOfDecimal(n / 10);
      assert Decimal(n)[..|Decimal(n)| - 1] == Decimal(n / 10);
    }
  }

  /** `str::parse::<u64>` on a string of digits. */
  function ParseU64(digits: Bytes): Option<nat>
    requires forall i :: 0 <= i < |digits| ==> IsDigit(digits[i])
  {
    if digits != [] && Value(digits) <= U64_MAX then Some(Value(digits)) else None
  }

  // ---- The scanner as a function ----

  /** The first position from `i` on whose byte is not white space. */
  function SkipSpace(data: Bytes, i: nat): (j: nat)
    requires i <= |data|
    ensures i <= j <= |data|
    ensures forall k :: i <= k < j ==> IsSpace(data[k])
    ensures j < |data| ==> !IsSpace(data[j])
    decreases |data| - i
  {
    if i < |data| && IsSpace(data[i]) then SkipSpace(data, i + 1) else i
  }

  function SkipDigits(data: Bytes, i: nat): (j: nat)
    requires i <= |data|
    ensures i <= j <= |data|
    ensures forall k :: i <= k < j ==> IsDigit(data[k])
    ensures j < |data| ==> !IsDigit(data[j])
    decreases |data| - i
  {
    if i < |data| && IsDigit(data[i]) then SkipDigits(data, i + 1) else i
  }

  /** The number that starts at `i`. */
  function NumberAt(data: Bytes, i: nat): Option<nat>
    requires i <= |data|
  {
    ParseU64(data[i..SkipDigits(data, i)])
  }

  /** What the scan from `i` on yields. The key is not looked for in the last
      four bytes, where nothing could follow it. */
  function Scan(data: Bytes, i: nat): Option<nat>
    decreases |data| - i
  {
    if i + 4 >= |data| then None
    else if !OccursAt(data, ID_KEY, i) then Scan(data, i + 1)
    else
      var j := SkipSpace(data, i + 4);
      if j < |data| && data[j] == COLON then NumberAt(data, SkipSpace(data, j + 1))
      else Scan(data, j)
  }

  method PassSpace(data: Bytes, start: nat) returns (i: nat)
    requires start <= |data|
    ensures i == SkipSpace(data, start)
  {
    i := start;
    while i < |data| && IsSpace(data[i])
      invariant start <= i <= |data| && SkipSpace(data, start) == SkipSpace(data, i)
    {
      i := i + 1;
    }
  }

  method PassDigits(data: Bytes, start: nat) returns (i: nat)
    requires start <= |data|
    ensures i == SkipDigits(data, start)
  {
    i := start;
    while i < |data| && IsDigit(data[i])
      invariant start <= i <= |data| && SkipDigits(data, start) == SkipDigits(data, i)
    {
      i := i + 1;
    }
  }

  lemma KeyByteByByte(data: Bytes, i: nat)
    requires i + 4 <= |data|
    ensures OccursAt(data, ID_KEY, i) <==>
            data[i] == QUOTE && data[i + 1] == 0x69 && data[i + 2] == 0x64 && data[i + 3] == QUOTE
  {
    assert data[i..i + 4] == [data[i], data[i + 1], data[i + 2], data[i + 3]];
  }

  /** The nested loops of `parse_jsonrpc_id`. */
  method ParseJsonRpcId(data: Bytes) returns (r: Option<nat>)
    ensures r == Scan(data, 0)
  {
    hide OccursAt, SkipSpace, SkipDigits;
    var i: nat := 0;
    while i + 4 < |data|
      invariant i <= |data| && Scan(data, 0) == Scan(data, i)
      decreases |data| - i
    {
      KeyByteByByte(data, i);
      if data[i] == QUOTE && data[i + 1] == 0x69 && data[i + 2] == 0x64 && data[i + 3] == QUOTE {
        i := PassSpace(data, i + 4);
        if i >= |data| || data[i] != COLON {
          continue;
        }
        var start := PassSpace(data, i + 1);
        i := PassDigits(data, start);
        if start == i {
          return None;
        }
        return ParseU64(data[start..i]);
      }
      i := i + 1;
    }
    r := None;
  }

  // ---- What the result means ----

  predicate AllSpace(s: Bytes) {
    forall i :: 0 <= i < |s| ==> IsSpace(s[i])
  }

  /** `data` up to `key` holds no earlier occurrence of the key. */
  predicate FirstKeyAt(data: Bytes, key: nat) {
    OccursAt(data, ID_KEY, key) && forall i :: 0 <= i < key ==> !OccursAt(data, ID_KEY, i)
  }

  lemma {:induction false} ScanReachesFirstKey(data: Bytes, key: nat, i: nat)
    requires FirstKeyAt(data, key) && i <= key && key + 4 < |data|
    ensures Scan(data, i) == Scan(data, key)
    decreases key - i
  {
    if i < key {
      ScanReachesFirstKey(data, key, i + 1);
    }
  }

  lemma {:induction false} SkipSpaceTo(data: Bytes, i: nat, j: nat)
    requires i <= j <= |data| && (forall k :: i <= k < j ==> IsSpace(data[k])) && (j < |data| ==> !IsSpace(data[j]))
    ensures SkipSpace(data, i) == j
    decreases j - i
  {
    if i < j {
      SkipSpaceTo(data, i + 1, j);
    }
  }

  lemma {:induction false} SkipDigitsTo(data: Bytes, i: nat, j: nat)
    requires i <= j <= |data| && (forall k :: i <= k < j ==> IsDigit(data[k])) && (j < |data| ==> !IsDigit(data[j]))
    ensures SkipDigits(data, i) == j
    decreases j - i
  {
    if i < j {
      SkipDigitsTo(data, i + 1, j);
    }
  }

  predicate SpaceFrom(data: Bytes, i: nat, j: nat) {
    i <= j <= |data| && forall k :: i <= k < j ==> IsSpace(data[k])
  }

  lemma ReadsAt(data: Bytes, key: nat, colon: nat, number: nat, end: nat)
    requires FirstKeyAt(data, key) && SpaceFrom(data, key + 4, colon) && SpaceFrom(data, colon + 1, number)
    requires data[colon] == COLON && number < end <= |data| && (forall k :: number <= k < end ==> IsDigit(data[k]))
    requires end < |data| ==> !IsDigit(data[end])
    ensures Scan(data, 0) == ParseU64(data[number..end])
  {
    hide SkipSpace, SkipDigits, OccursAt;
    ScanReachesFirstKey(data, key, 0);
    SkipSpaceTo(data, key + 4, colon);
    SkipSpaceTo(data, colon + 1, number);
    SkipDigitsTo(data, number, end);
  }

  /** A message `before "id" gap1 : gap2 n rest` whose first "id" is that one. */
  lemma {:induction false} ReadsTheFirstId(before: Bytes, gap1: Bytes, gap2: Bytes, n: nat, rest: Bytes)
    requires AllSpace(gap1) && AllSpace(gap2) && (rest != [] ==> !IsDigit(rest[0]))
    requires FirstKeyAt(before + ID_KEY + gap1 + [COLON] + gap2 + Decimal(n) + rest, |before|)
    ensures Scan(before + ID_KEY + gap1 + [COLON] + gap2 + Decimal(n) + rest, 0) ==
            if n <= U64_MAX then Some(n) else None
  {
    hide Scan, OccursAt, Decimal, Value;
    var digits := Decimal(n);
    var data := before + ID_KEY + gap1 + [COLON] + gap2 + digits + rest;
    var colon := |before| + 4 + |gap1|;
    var number := colon + 1 + |gap2|;
    var end := number + |digits|;
    assert SpaceFrom(data, |before| + 4, colon) by {
      assert forall k :: |before| + 4 <= k < colon ==> data[k] == gap1[k - |before| - 4];
    }
    assert SpaceFrom(data, colon + 1, number) by {
      assert forall k :: colon + 1 <= k < number ==> data[k] == gap2[k - colon - 1];
    }
    assert forall k :: number <= k < end ==> data[k] == digits[k - number];
    assert data[number..end] == digits;
    ReadsAt(data, |before|, colon, number, end);
    ValueOfDecimal(n);
  }

  /** Whatever the bytes are, a number comes from a key, a colon and the digits after it. */
  lemma {:induction false} FoundIdHasItsKey(data: Bytes, i: nat) returns (key: nat, colon: nat, number: nat, end: nat)
    requires i <= |data| && Scan(data, i).Some?
    ensures i <= key && OccursAt(data, ID_KEY, key)
    ensures SpaceFrom(data, key + 4, colon) && SpaceFrom(data, colon + 1, number)
    ensures data[colon] == COLON && number < end <= |data|
    ensures (forall k :: number <= k < end ==> IsDigit(data[k])) && (end < |data| ==> !IsDigit(data[end]))
    ensures Scan(data, i) == Some(Value(data[number..end])) && Value(data[number..end]) <= U64_MAX
    decreases |data| - i
  {
    if !OccursAt(data, ID_KEY, i) {
      key, colon, number, end := FoundIdHasItsKey(data, i + 1);
    } else {
      colon := SkipSpace(data, i + 4);
      if data[colon] == COLON {
        key := i;
        number := SkipSpace(data, colon + 1);
        end := SkipDigits(data, number);
      } else {
        key, colon, number, end := FoundIdHasItsKey(data, colon);
      }
    }
  }

  // ---- The response matcher and its cheap precheck ----

  datatype Match = Match(requestId: nat, accepted: bool)

  predicate MaybeRequestResponse(data: Bytes) {
    Contains(data, ID_KEY) && (Contains(data, RESULT_KEY) || Contains(data, ERROR_KEY))
  }

  /** An error entry wins over a result entry. */
  function MatchRequestResponse(data: Bytes): Option<Match> {
    var id := Scan(data, 0);
    if id.None? then None
    else if Contains(data, ERROR_KEY) then Some(Match(id.value, false))
    else if Contains(data, RESULT_KEY) then Some(Match(id.value, true))
    else None
  }

  /** The precheck drops nothing: what would match passes it. A match carries the
      scanned id, and is a rejection exactly when there is an error entry. */
  lemma PrecheckCoversMatches(data: Bytes)
    ensures MatchRequestResponse(data).Some? <==> Scan(data, 0).Some? && MaybeRequestResponse(data)
    ensures var found := MatchRequestResponse(data);
            found.Some? ==> Scan(data, 0) == Some(found.value.requestId) && (found.value.accepted <==> !Contains(data, ERROR_KEY))
  {
    if Scan(data, 0).Some? {
      var key, _, _, _ := FoundIdHasItsKey(data, 0);
      assert OccursAt(data, ID_KEY, key);
    }
  }
}
