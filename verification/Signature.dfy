/** Signed webhook headers (crates/common/src/crypto.rs). Strings are their UTF-8 bytes; the payload stands
    for its lossy conversion to text. */
module Signature {
  import opened Decimal
  import opened Models

  /** HMAC-SHA256 in hexadecimal, of a key and the data. */
  type Hmac = (string, string) -> string

  // ---------- comparing in constant time ----------

  function Xor(a: nat, b: nat): nat {
    if a == 0 && b == 0 then 0 else 2 * Xor(a / 2, b / 2) + (a + b) % 2
  }

  function Or(a: nat, b: nat): nat {
    if a == 0 && b == 0 then 0 else 2 * Or(a / 2, b / 2) + (if a % 2 == 1 || b % 2 == 1 then 1 else 0)
  }

  /** fold over the zipped bytes. */
  function Difference(acc: nat, a: string, b: string): nat
    decreases |a|
  {
    if a == [] || b == [] then acc else Difference(Or(acc, Xor(a[0] as nat, b[0] as nat)), a[1..], b[1..])
  }

  predicate VerifyHmac(hmac: Hmac, key: string, data: string, expected: string) {
    var computed := hmac(key, data);
    |computed| == |expected| && Difference(0, computed, expected) == 0
  }

  lemma {:induction false} XorZero(a: nat, b: nat)
    ensures Xor(a, b) == 0 <==> a == b
  {
    if !(a == 0 && b == 0) {
      XorZero(a / 2, b / 2);
    }
  }

  lemma {:induction false} OrZero(a: nat, b: nat)
    ensures Or(a, b) == 0 <==> a == 0 && b == 0
  {
    if !(a == 0 && b == 0) {
      OrZero(a / 2, b / 2);
    }
  }

  lemma {:induction false} NoDifference(acc: nat, a: string, b: string)
    requires |a| == |b|
    ensures Difference(acc, a, b) == 0 <==> acc == 0 && a == b
    decreases |a|
  {
    if a != [] {
      XorZero(a[0] as nat, b[0] as nat);
      OrZero(acc, Xor(a[0] as nat, b[0] as nat));
      NoDifference(Or(acc, Xor(a[0] as nat, b[0] as nat)), a[1..], b[1..]);
      assert a == [a[0]] + a[1..] && b == [b[0]] + b[1..];
    }
  }

  /** The fold accepts exactly the right signature. */
  lemma VerifyHmacExact(hmac: Hmac, key: string, data: string, expected: string)
    ensures VerifyHmac(hmac, key, data, expected) <==> expected == hmac(key, data)
  {
    if |hmac(key, data)| == |expected| {
      NoDifference(0, hmac(key, data), expected);
    }
  }

  // ---------- the header ----------

  function SignedPayload(timestamp: int, payload: string): string {
    Print(timestamp) + "." + payload
  }

  function Build(hmac: Hmac, secret: string, payload: string, timestamp: int): string {
    "t=" + Print(timestamp) + ",v1=" + hmac(secret, SignedPayload(timestamp, payload))
  }

  function Split(s: string): (parts: seq<string>)
    ensures parts != []
  {
    if s == [] then [""]
    else
      var rest := Split(s[1..]);
      if s[0] == ',' then [""] + rest else [[s[0]] + rest[0]] + rest[1..]
  }

  function StripPrefix(s: string, prefix: string): Option<string> {
    if prefix <= s then Some(s[|prefix|..]) else None
  }

  /** The last part with this prefix, without it. */
  function LastField(parts: seq<string>, prefix: string): Option<string> {
    if parts == [] then None
    else
      var field := StripPrefix(parts[|parts| - 1], prefix);
      if field.Some? then field else LastField(parts[..|parts| - 1], prefix)
  }

  /** The last "t=" decides, even when it is no number. */
  function Timestamp(parts: seq<string>): Option<int> {
    var field := LastField(parts, "t=");
    if field.Some? then ParseI64(field.value) else None
  }

  // ---------- the age ----------

  const TWO_64: int := 0x1_0000_0000_0000_0000

  /** 64-bit arithmetic of a release build. */
  function Wrap(n: int): int {
    if n > I64_MAX then n - TWO_64 else if n < I64_MIN then n + TWO_64 else n
  }

  function Abs(n: int): int {
    if n < 0 then -n else n
  }

  function Age(now: int, timestamp: int): int {
    Wrap(Abs(Wrap(now - timestamp)))
  }

  predicate InI64(n: int) {
    I64_MIN <= n <= I64_MAX
  }

  /** The header carries a readable timestamp, young enough, and the signature of the payload under it. */
  predicate Accepts(hmac: Hmac, secret: string, payload: string, header: string, maxAge: int, now: int) {
    var timestamp, signature := Timestamp(Split(header)), LastField(Split(header), "v1=");
    && timestamp.Some? && signature.Some?
    && Age(now, timestamp.value) <= maxAge
    && signature.value == hmac(secret, SignedPayload(timestamp.value, payload))
  }

  // ---------- the same in terms of the header's text ----------

  function Join(parts: seq<string>): string
    requires parts != []
  {
    if |parts| == 1 then parts[0] else parts[0] + "," + Join(parts[1..])
  }

  predicate CommaFree(s: string) {
    forall i :: 0 <= i < |s| ==> s[i] != ','
  }

  predicate AllCommaFree(parts: seq<string>) {
    forall i :: 0 <= i < |parts| ==> CommaFree(parts[i])
  }

  lemma {:induction false} SplitOne(s: string)
    requires CommaFree(s)
    ensures Split(s) == [s]
  {
    if s != [] {
      SplitOne(s[1..]);
      assert s == [s[0]] + s[1..];
    }
  }

  lemma {:induction false} SplitFirst(a: string, b: string)
    requires CommaFree(a)
    ensures Split(a + "," + b) == [a] + Split(b)
  {
    if a == [] {
      assert (a + "," + b)[1..] == b;
    } else {
      SplitFirst(a[1..], b);
      assert (a + "," + b)[1..] == a[1..] + "," + b;
      assert a == [a[0]] + a[1..];
    }
  }

  /** The parts of a header are the one list of comma-free texts that joins to it. */
  lemma {:induction false} SplitExact(s: string, parts: seq<string>)
    requires parts != []
    ensures Split(s) == parts <==> AllCommaFree(parts) && Join(parts) == s
    decreases |parts|
  {
    if AllCommaFree(parts) && Join(parts) == s {
      SplitJoined(parts);
    }
    if Split(s) == parts {
      JoinSplit(s);
    }
  }

  lemma {:induction false} SplitJoined(parts: seq<string>)
    requires parts != [] && AllCommaFree(parts)
    ensures Split(Join(parts)) == parts
  {
    assert CommaFree(parts[0]);
    if |parts| == 1 {
      SplitOne(parts[0]);
    } else {
      SplitJoined(parts[1..]);
      SplitFirst(parts[0], Join(parts[1..]));
    }
  }

  lemma {:induction false} JoinSplit(s: string)
    ensures AllCommaFree(Split(s)) && Join(Split(s)) == s
  {
    if s != [] {
      var rest := Split(s[1..]);
      JoinSplit(s[1..]);
      if s[0] == ',' {
        assert Split(s)[1..] == rest;
      } else {
        assert CommaFree(rest[0]) && Split(s)[0] == [s[0]] + rest[0];
        assert Split(s)[1..] == rest[1..];
        assert s == [s[0]] + s[1..];
      }
    }
  }

  /** No later part has the prefix. */
  predicate LastWith(parts: seq<string>, i: nat, prefix: string) {
    i < |parts| && prefix <= parts[i] && forall k :: i < k < |parts| ==> !(prefix <= parts[k])
  }

  lemma {:induction false} LastFieldExact(parts: seq<string>, prefix: string, value: string)
    ensures LastField(parts, prefix) == Some(value) <==>
              exists i: nat :: LastWith(parts, i, prefix) && parts[i] == prefix + value
  {
    if parts != [] {
      var last := |parts| - 1;
      var front := parts[..last];
      LastFieldExact(front, prefix, value);
      if prefix <= parts[last] {
        assert parts[last] == prefix + parts[last][|prefix|..];
        assert LastWith(parts, last, prefix);
        assert prefix + value <= parts[last] ==> (prefix + value)[|prefix|..] == value;
      } else {
        assert forall i: nat :: i < last ==> (LastWith(front, i, prefix) <==> LastWith(parts, i, prefix));
      }
    }
  }

  /** Parts i and j of the header, the last of their kinds, carry the time and the payload's signature under it. */
  predicate Bears(hmac: Hmac, secret: string, payload: string, header: string, timestamp: int, i: nat, j: nat) {
    var parts := Split(header);
    && LastWith(parts, i, "t=") && ParseI64(parts[i][2..]) == Some(timestamp)
    && LastWith(parts, j, "v1=") && parts[j] == "v1=" + hmac(secret, SignedPayload(timestamp, payload))
  }

  /** Some signed time that is young enough. */
  ghost predicate Signed(hmac: Hmac, secret: string, payload: string, header: string, maxAge: int, now: int) {
    exists timestamp: int, i: nat, j: nat ::
      Bears(hmac, secret, payload, header, timestamp, i, j) && Age(now, timestamp) <= maxAge
  }

  /** A header is accepted if and only if it bears a young time and the payload's signature under it; so any
      other signature, and none at all, is refused. */
  lemma AcceptsExact(hmac: Hmac, secret: string, payload: string, header: string, maxAge: int, now: int)
    ensures Accepts(hmac, secret, payload, header, maxAge, now) <==> Signed(hmac, secret, payload, header, maxAge, now)
  {
    if Accepts(hmac, secret, payload, header, maxAge, now) {
      AcceptedBears(hmac, secret, payload, header, maxAge, now);
    }
    if timestamp: int, i: nat, j: nat :|
        Bears(hmac, secret, payload, header, timestamp, i, j) && Age(now, timestamp) <= maxAge {
      BearsAccepted(hmac, secret, payload, header, timestamp, i, j);
    }
  }

  lemma BearsAccepted(hmac: Hmac, secret: string, payload: string, header: string, timestamp: int, i: nat, j: nat)
    requires Bears(hmac, secret, payload, header, timestamp, i, j)
    ensures Timestamp(Split(header)) == Some(timestamp)
    ensures LastField(Split(header), "v1=") == Some(hmac(secret, SignedPayload(timestamp, payload)))
  {
    var parts := Split(header);
    var time, signature := parts[i][2..], hmac(secret, SignedPayload(timestamp, payload));
    assert parts[i] == "t=" + time;
    LastFieldExact(parts, "t=", time);
    LastFieldExact(parts, "v1=", signature);
    assert LastWith(parts, i, "t=") && parts[i] == "t=" + time;
    assert LastWith(parts, j, "v1=") && parts[j] == "v1=" + signature;
  }

  lemma AcceptedBears(hmac: Hmac, secret: string, payload: string, header: string, maxAge: int, now: int)
    requires Accepts(hmac, secret, payload, header, maxAge, now)
    ensures Signed(hmac, secret, payload, header, maxAge, now)
  {
    var parts := Split(header);
    var time, signature := LastField(parts, "t=").value, LastField(parts, "v1=").value;
    LastFieldExact(parts, "t=", time);
    LastFieldExact(parts, "v1=", signature);
    var i: nat :| LastWith(parts, i, "t=") && parts[i] == "t=" + time;
    var j: nat :| LastWith(parts, j, "v1=") && parts[j] == "v1=" + signature;
    assert Bears(hmac, secret, payload, header, Timestamp(parts).value, i, j);
  }

  method VerifyWebhookSignature(hmac: Hmac, secret: string, payload: string, header: string, maxAge: int, now: int)
    returns (r: Result<()>)
    ensures r == if Accepts(hmac, secret, payload, header, maxAge, now) then Ok(()) else Err(Unauthorized)
    ensures r.Ok? <==> Signed(hmac, secret, payload, header, maxAge, now)
  {
    AcceptsExact(hmac, secret, payload, header, maxAge, now);
    var timestamp: Option<int> := None;
    var sigV1: Option<string> := None;
    var parts := Split(header);
    for i := 0 to |parts|
      invariant timestamp == Timestamp(parts[..i])
      invariant sigV1 == LastField(parts[..i], "v1=")
    {
      assert parts[..i + 1][..i] == parts[..i];
      var t, v1 := StripPrefix(parts[i], "t="), StripPrefix(parts[i], "v1=");
      if t.Some? {
        assert parts[i][0] == 't';
        timestamp := ParseI64(t.value);
      } else if v1.Some? {
        sigV1 := v1;
      }
    }
    assert parts[..|parts|] == parts;
    if timestamp.None? || sigV1.None? {
      return Err(Unauthorized);
    }
    if Age(now, timestamp.value) > maxAge {
      return Err(Unauthorized);
    }
    var signedPayload := SignedPayload(timestamp.value, payload);
    VerifyHmacExact(hmac, secret, signedPayload, sigV1.value);
    if !VerifyHmac(hmac, secret, signedPayload, sigV1.value) {
      return Err(Unauthorized);
    }
    return Ok(());
  }

  // ---------- what is built is accepted ----------

  lemma PrintCommaFree(n: int)
    ensures CommaFree(Print(n))
  {
    DigitsValue(if n < 0 then -n else n);
  }

  /** The header is read back into the timestamp and the signature it was built from. */
  lemma BuiltParts(hmac: Hmac, secret: string, payload: string, timestamp: int)
    requires CommaFree(hmac(secret, SignedPayload(timestamp, payload)))
    ensures var parts := Split(Build(hmac, secret, payload, timestamp));
            && Timestamp(parts) == InRange(timestamp)
            && LastField(parts, "v1=") == Some(hmac(secret, SignedPayload(timestamp, payload)))
  {
    var sig := hmac(secret, SignedPayload(timestamp, payload));
    var first, second := "t=" + Print(timestamp), "v1=" + sig;
    PrintCommaFree(timestamp);
    assert Build(hmac, secret, payload, timestamp) == first + "," + second;
    SplitFirst(first, second);
    SplitOne(second);
    var parts := [first, second];
    assert Split(Build(hmac, secret, payload, timestamp)) == parts;
    assert parts[..1] == [first] && parts[..1][..0] == [];
    assert second[0] == 'v';
    assert StripPrefix(second, "t=") == None;
    assert StripPrefix(first, "t=") == Some(Print(timestamp));
    assert LastField(parts[..1], "t=") == Some(Print(timestamp));
    assert StripPrefix(second, "v1=") == Some(sig);
    PrintParse(timestamp);
  }

  /** Neither the subtraction nor the absolute value overflows. */
  predicate AgeFits(now: int, timestamp: int) {
    I64_MIN < now - timestamp <= I64_MAX
  }

  lemma AgeExact(now: int, timestamp: int, maxAge: int)
    requires InI64(now) && InI64(timestamp) && InI64(maxAge)
    ensures Age(now, timestamp) <= maxAge <==>
              if AgeFits(now, timestamp) then Abs(now - timestamp) <= maxAge
              else now - timestamp == TWO_64 / 2 || now - timestamp == -TWO_64 / 2 || TWO_64 - Abs(now - timestamp) <= maxAge
  {
  }

  /** For every secret, payload, clock and 64-bit time the built header is accepted exactly when it is young
      enough, unless the age overflows: then it is accepted when the age that wrapped around is small. */
  lemma RoundTrip(hmac: Hmac, secret: string, payload: string, timestamp: int, maxAge: int, now: int)
    requires CommaFree(hmac(secret, SignedPayload(timestamp, payload)))
    requires InI64(now) && InI64(timestamp) && InI64(maxAge)
    ensures Accepts(hmac, secret, payload, Build(hmac, secret, payload, timestamp), maxAge, now) <==>
              if AgeFits(now, timestamp) then Abs(now - timestamp) <= maxAge
              else now - timestamp == TWO_64 / 2 || now - timestamp == -TWO_64 / 2 || TWO_64 - Abs(now - timestamp) <= maxAge
  {
    BuiltParts(hmac, secret, payload, timestamp);
    AgeExact(now, timestamp, maxAge);
  }

  lemma NoDot(n: int)
    ensures forall i :: 0 <= i < |Print(n)| ==> Print(n)[i] != '.'
  {
    DigitsValue(if n < 0 then -n else n);
  }

  lemma PrintInjective(m: int, n: int)
    requires Print(m) == Print(n)
    ensures m == n
  {
    DigitsValue(if m < 0 then -m else m);
    DigitsValue(if n < 0 then -n else n);
    assert (m < 0 <==> Print(m)[0] == '-') && (n < 0 <==> Print(n)[0] == '-');
    if m < 0 {
      assert Print(m)[1..] == Digits(-m) && Print(n)[1..] == Digits(-n);
    }
  }

  /** The signed text determines the time and the payload. */
  lemma SignedPayloadInjective(t: int, payload: string, u: int, other: string)
    requires SignedPayload(t, payload) == SignedPayload(u, other)
    ensures t == u && payload == other
  {
    var x, a, b := SignedPayload(t, payload), Print(t), Print(u);
    NoDot(t);
    NoDot(u);
    assert x[|a|] == '.' && x[|b|] == '.';
    assert forall i :: (0 <= i < |a| ==> x[i] == a[i] != '.') && (0 <= i < |b| ==> x[i] == b[i] != '.');
    assert x[..|a|] == a && x[..|b|] == b;
    PrintInjective(t, u);
    assert payload == x[|a| + 1..] && other == x[|b| + 1..];
  }

  /** Any header accepted with the signature made for one time and payload bears that time and is accepted for
      that payload, or two different signed texts collide under HMAC. */
  lemma SignatureBinds(
    hmac: Hmac, secret: string, payload: string, timestamp: int, header: string, other: string, maxAge: int, now: int)
    requires Accepts(hmac, secret, other, header, maxAge, now)
    requires LastField(Split(header), "v1=") == Some(hmac(secret, SignedPayload(timestamp, payload)))
    ensures var borne := Timestamp(Split(header)).value;
            var x, y := SignedPayload(timestamp, payload), SignedPayload(borne, other);
            hmac(secret, x) == hmac(secret, y) && (x == y <==> borne == timestamp && other == payload)
  {
    var borne := Timestamp(Split(header)).value;
    if SignedPayload(timestamp, payload) == SignedPayload(borne, other) {
      SignedPayloadInjective(timestamp, payload, borne, other);
    }
  }
}
