/**
 The signed routing scope: `v2.` payload `.` signature, where the payload is the
 account key in unpadded base64url (RFC 4648, sections 3.2 and 5) and the
 signature is any function of it. A key is the bytes of its UTF-8 form; which
 byte strings are valid UTF-8 is a parameter.
 */
module RoutingScope {
  import opened Base

  type Byte = b: nat | b < 256

  predicate Ascii(s: string) { forall i | 0 <= i < |s| :: s[i] < 128 as char }

  /** A hexadecimal digest: ASCII and not empty. */
  type Hex = s: string | s != "" && Ascii(s) witness "0"

  // ----- base64url ---------------------------------------------------------------------------

  function Symbol(v: nat): char
    requires v < 64
  {
    if v < 26 then ('A' as int + v) as char
    else if v < 52 then ('a' as int + v - 26) as char
    else if v < 62 then ('0' as int + v - 52) as char
    else if v == 62 then '-' else '_'
  }

  /** The decoder maps `-` and `_` to `+` and `/` first, so it reads both alphabets. */
  function Value(c: char): Option<nat> {
    if 'A' <= c <= 'Z' then Some(c as int - 'A' as int)
    else if 'a' <= c <= 'z' then Some(c as int - 'a' as int + 26)
    else if '0' <= c <= '9' then Some(c as int - '0' as int + 52)
    else if c == '-' || c == '+' then Some(62)
    else if c == '_' || c == '/' then Some(63)
    else None
  }

  function Encoded(b: seq<Byte>): string {
    if b == [] then ""
    else if |b| == 1 then [Symbol(b[0] / 4), Symbol(b[0] % 4 * 16), '=', '=']
    else if |b| == 2 then [Symbol(b[0] / 4), Symbol(b[0] % 4 * 16 + b[1] / 16), Symbol(b[1] % 16 * 4), '=']
    else [Symbol(b[0] / 4), Symbol(b[0] % 4 * 16 + b[1] / 16), Symbol(b[1] % 16 * 4 + b[2] / 64), Symbol(b[2] % 64)]
         + Encoded(b[3..])
  }

  /** s.rstrip("="). */
  function Stripped(s: string): string {
    if s != "" && s[|s| - 1] == '=' then Stripped(s[..|s| - 1]) else s
  }

  function Pads(n: nat): string { if n == 0 then "" else Pads(n - 1) + "=" }

  /** payload + "=" * (-len(payload) % 4). */
  function Padded(s: string): string { s + Pads((4 - |s| % 4) % 4) }

  /**
   The lenient decoder: characters outside the alphabet are skipped, padding ends
   the data once it completes a group, and an open group at the end is an error.
   `at` is the position in the group and `left` the bits carried over.
   */
  function DecodedFrom(s: string, at: nat, left: nat, pads: nat): Option<seq<Byte>>
    requires at < 4 && left < 64 && (at == 0 ==> left == 0) && (at == 2 ==> left < 16) && (at == 3 ==> left < 4)
  {
    if s == "" then (if at == 0 then Some([]) else None)
    else if s[0] == '=' then
      if at >= 2 && at + pads + 1 >= 4 then Some([])
      else DecodedFrom(s[1..], at, left, if at >= 2 then pads + 1 else pads)
    else if Value(s[0]).None? then DecodedFrom(s[1..], at, left, pads)
    else
      var v := Value(s[0]).value;
      if at == 0 then DecodedFrom(s[1..], 1, v, 0)
      else if at == 1 then Cons(left * 4 + v / 16, DecodedFrom(s[1..], 2, v % 16, 0))
      else if at == 2 then Cons(left * 16 + v / 4, DecodedFrom(s[1..], 3, v % 4, 0))
      else Cons(left * 64 + v, DecodedFrom(s[1..], 0, 0, 0))
  }

  function Cons(b: Byte, rest: Option<seq<Byte>>): Option<seq<Byte>> {
    if rest.Some? then Some([b] + rest.value) else None
  }

  function Decoded(s: string): Option<seq<Byte>> { DecodedFrom(s, 0, 0, 0) }

  // ----- the scope -----------------------------------------------------------------------------

  /** `Raises` is an exception that is not turned into the ROUTING_SCOPE_INVALID answer. */
  datatype Outcome = Account(key: seq<Byte>) | Invalid | Raises

  const VERSION := "v2"

  function Payload(key: seq<Byte>): string { Stripped(Encoded(key)) }

  function Scope(mac: string -> Hex, key: seq<Byte>): string {
    VERSION + "." + Payload(key) + "." + mac(Payload(key))
  }

  function FirstDot(s: string): (i: nat)
    ensures i <= |s|
    ensures i < |s| ==> s[i] == '.'
    ensures forall j | 0 <= j < i :: s[j] != '.'
  {
    if s == "" || s[0] == '.' then 0 else 1 + FirstDot(s[1..])
  }

  /** scope.split(".", 2), when there are two dots to split at. */
  function Split(s: string): Option<(string, string, string)> {
    var i := FirstDot(s);
    if i == |s| then None
    else
      var rest := s[i + 1..];
      var j := FirstDot(rest);
      if j == |rest| then None else Some((s[..i], rest[..j], rest[j + 1..]))
  }

  function Opened(mac: string -> Hex, utf8: seq<Byte> -> bool, scope: string): Outcome {
    var parts := Split(scope);
    if parts.None? then Invalid
    else
      var (version, payload, signature) := parts.value;
      if version != VERSION || payload == "" || signature == "" then Invalid
      else if !Ascii(payload) || !Ascii(signature) then Raises
      else if mac(payload) != signature then Invalid
      else
        var key := Decoded(Padded(payload));
        if key.None? || !utf8(key.value) || key.value == [] then Invalid else Account(key.value)
  }

  // ----- base64 round trip --------------------------------------------------------------------------

  lemma SymbolValue(v: nat)
    requires v < 64
    ensures Value(Symbol(v)) == Some(v)
    ensures Symbol(v) != '=' && Symbol(v) != '.' && Symbol(v) < 128 as char
  {
  }

  /** One symbol of the alphabet, at each position of a group. */
  lemma ReadsSymbol(v: nat, rest: string, at: nat, left: nat)
    requires v < 64 && at < 4 && left < 64 && (at == 0 ==> left == 0) && (at == 2 ==> left < 16) && (at == 3 ==> left < 4)
    ensures DecodedFrom([Symbol(v)] + rest, at, left, 0) ==
            if at == 0 then DecodedFrom(rest, 1, v, 0)
            else if at == 1 then Cons(left * 4 + v / 16, DecodedFrom(rest, 2, v % 16, 0))
            else if at == 2 then Cons(left * 16 + v / 4, DecodedFrom(rest, 3, v % 4, 0))
            else Cons(left * 64 + v, DecodedFrom(rest, 0, 0, 0))
  {
    SymbolValue(v);
    hide Symbol, Value, Cons;
    assert ([Symbol(v)] + rest)[1..] == rest;
  }

  /** Cutting three bytes into four sextets and joining them again. */
  lemma BitsRejoin(a: Byte, b: Byte, c: Byte)
    ensures a / 4 < 64 && a % 4 * 16 + b / 16 < 64 && b % 16 * 4 + c / 64 < 64
    ensures a / 4 * 4 + (a % 4 * 16 + b / 16) / 16 == a
    ensures (a % 4 * 16 + b / 16) % 16 * 16 + (b % 16 * 4 + c / 64) / 4 == b
    ensures (b % 16 * 4 + c / 64) % 4 * 64 + c % 64 == c
  {
    assert b / 16 < 16 && c / 64 < 4;
    assert (a % 4 * 16 + b / 16) / 16 == a % 4 && (a % 4 * 16 + b / 16) % 16 == b / 16;
    assert (b % 16 * 4 + c / 64) / 4 == b % 16 && (b % 16 * 4 + c / 64) % 4 == c / 64;
  }

  /** Four symbols of a full group give back its three bytes. */
  lemma GroupDecodes(a: Byte, b: Byte, c: Byte, rest: string)
    ensures a / 4 < 64 && a % 4 * 16 + b / 16 < 64 && b % 16 * 4 + c / 64 < 64
    ensures Decoded([Symbol(a / 4)] + ([Symbol(a % 4 * 16 + b / 16)] + ([Symbol(b % 16 * 4 + c / 64)] + ([Symbol(c % 64)] + rest))))
            == Cons(a, Cons(b, Cons(c, Decoded(rest))))
  {
    hide Symbol, Cons, DecodedFrom;
    BitsRejoin(a, b, c);
    var p, q, r, t := a / 4, a % 4 * 16 + b / 16, b % 16 * 4 + c / 64, c % 64;
    ReadsSymbol(p, [Symbol(q)] + ([Symbol(r)] + ([Symbol(t)] + rest)), 0, 0);
    ReadsSymbol(q, [Symbol(r)] + ([Symbol(t)] + rest), 1, p);
    ReadsSymbol(r, [Symbol(t)] + rest, 2, q % 16);
    ReadsSymbol(t, rest, 3, r % 4);
  }

  /** Padding closes a group that holds one or two bytes. */
  lemma PaddingCloses(left: nat)
    requires left < 16
    ensures DecodedFrom("==", 2, left, 0) == Some([])
    ensures left < 4 ==> DecodedFrom("=", 3, left, 0) == Some([])
  {
    assert "=="[1..] == "=";
    assert DecodedFrom("=", 2, left, 1) == Some([]);
  }

  lemma OneByteDecodes(a: Byte)
    ensures Decoded(Encoded([a])) == Some([a])
  {
    BitsRejoin(a, 0, 0);
    var p, q := a / 4, a % 4 * 16;
    ReadsSymbol(p, [Symbol(q)] + "==", 0, 0);
    ReadsSymbol(q, "==", 1, p);
    PaddingCloses(q % 16);
    hide Symbol, DecodedFrom;
    assert Encoded([a]) == [Symbol(p)] + ([Symbol(q)] + "==");
    assert [a] + [] == [a];
  }

  lemma TwoBytesDecode(a: Byte, b: Byte)
    ensures Decoded(Encoded([a, b])) == Some([a, b])
  {
    BitsRejoin(a, b, 0);
    var p, q, r := a / 4, a % 4 * 16 + b / 16, b % 16 * 4;
    hide Symbol, DecodedFrom;
    assert Encoded([a, b]) == [Symbol(p)] + ([Symbol(q)] + ([Symbol(r)] + "="));
    hide Encoded;
    TwoSymbolsDecode(p, q, r);
    assert [a] + ([b] + []) == [a, b];
  }

  lemma TwoSymbolsDecode(p: nat, q: nat, r: nat)
    requires p < 64 && q < 64 && r < 64 && r % 4 == 0
    ensures Decoded([Symbol(p)] + ([Symbol(q)] + ([Symbol(r)] + "="))) ==
            Cons(p * 4 + q / 16, Cons(q % 16 * 16 + r / 4, Some([])))
  {
    hide Symbol, DecodedFrom, Cons;
    ReadsSymbol(p, [Symbol(q)] + ([Symbol(r)] + "="), 0, 0);
    ReadsSymbol(q, [Symbol(r)] + "=", 1, p);
    ReadsSymbol(r, "=", 2, q % 16);
    PaddingCloses(r % 4);
  }

  lemma {:induction false} DecodesEncoded(key: seq<Byte>)
    ensures Decoded(Encoded(key)) == Some(key)
  {
    hide Symbol, DecodedFrom;
    if |key| == 1 {
      OneByteDecodes(key[0]);
      assert key == [key[0]];
    } else if |key| == 2 {
      TwoBytesDecode(key[0], key[1]);
      assert key == [key[0], key[1]];
    } else if |key| >= 3 {
      var a, b, c, rest := key[0], key[1], key[2], key[3..];
      DecodesEncoded(rest);
      GroupDecodes(a, b, c, Encoded(rest));
      assert Encoded(key) == [Symbol(a / 4)] + ([Symbol(a % 4 * 16 + b / 16)] +
                             ([Symbol(b % 16 * 4 + c / 64)] + ([Symbol(c % 64)] + Encoded(rest))));
      assert key == [a] + ([b] + ([c] + rest));
    } else {
      assert Decoded("") == Some([]) by { EmptyDecodes(); }
    }
  }

  lemma EmptyDecodes()
    ensures Decoded("") == Some([])
  {
  }

  // ----- the padding comes back ------------------------------------------------------------------------

  /** Characters of the alphabet only: no padding, no dot, ASCII. */
  predicate Clean(s: string) { forall i | 0 <= i < |s| :: s[i] != '=' && s[i] != '.' && s[i] < 128 as char }

  lemma PadsAre()
    ensures Pads(0) == "" && Pads(1) == "=" && Pads(2) == "=="
  {
    assert Pads(1) == Pads(0) + "=" && Pads(2) == Pads(1) + "=";
  }

  lemma SymbolsAreClean(vs: seq<nat>, s: string)
    requires |vs| == |s| && forall i | 0 <= i < |vs| :: vs[i] < 64 && s[i] == Symbol(vs[i])
    ensures Clean(s)
  {
    forall i | 0 <= i < |s| ensures s[i] != '=' && s[i] != '.' && s[i] < 128 as char {
      SymbolValue(vs[i]);
    }
  }

  /** An encoding is clean symbols followed by as much padding as fills the last group. */
  lemma {:induction false} EncodedShape(key: seq<Byte>) returns (clean: string)
    ensures Clean(clean) && Encoded(key) == Padded(clean)
    ensures key != [] ==> clean != ""
  {
    if |key| < 3 {
      clean := ShortShape(key);
    } else {
      var rest := EncodedShape(key[3..]);
      var group := GroupShape(key);
      hide Encoded, Padded, Clean;
      CleanJoin(group, rest);
      PaddedJoin(group, rest);
      clean := group + rest;
    }
  }

  lemma ShortShape(key: seq<Byte>) returns (clean: string)
    requires |key| < 3
    ensures Clean(clean) && Encoded(key) == Padded(clean)
    ensures key != [] ==> clean != ""
  {
    PadsAre();
    hide Pads, Symbol, Clean;
    if key == [] {
      clean := "";
      SymbolsAreClean([], clean);
    } else if |key| == 1 {
      BitsRejoin(key[0], 0, 0);
      var vs := [key[0] / 4, key[0] % 4 * 16];
      clean := [Symbol(vs[0]), Symbol(vs[1])];
      SymbolsAreClean(vs, clean);
    } else {
      BitsRejoin(key[0], key[1], 0);
      var vs := [key[0] / 4, key[0] % 4 * 16 + key[1] / 16, key[1] % 16 * 4];
      clean := [Symbol(vs[0]), Symbol(vs[1]), Symbol(vs[2])];
      SymbolsAreClean(vs, clean);
    }
  }

  lemma GroupShape(key: seq<Byte>) returns (group: string)
    requires |key| >= 3
    ensures |group| == 4 && Clean(group) && Encoded(key) == group + Encoded(key[3..])
  {
    hide Symbol, Clean;
    BitsRejoin(key[0], key[1], key[2]);
    var vs := [key[0] / 4, key[0] % 4 * 16 + key[1] / 16, key[1] % 16 * 4 + key[2] / 64, key[2] % 64];
    group := [Symbol(vs[0]), Symbol(vs[1]), Symbol(vs[2]), Symbol(vs[3])];
    SymbolsAreClean(vs, group);
  }

  lemma CleanJoin(a: string, b: string)
    requires Clean(a) && Clean(b)
    ensures Clean(a + b)
  {
  }

  /** A full group in front changes nothing about the padding. */
  lemma PaddedJoin(group: string, rest: string)
    requires |group| == 4
    ensures Padded(group + rest) == group + Padded(rest)
  {
    hide Pads;
    assert |group + rest| % 4 == |rest| % 4;
  }

  lemma {:induction false} StripsPads(s: string, n: nat)
    requires Clean(s)
    ensures Stripped(s + Pads(n)) == s
  {
    if n == 0 {
      assert s + Pads(0) == s;
    } else {
      var t := s + Pads(n);
      assert t[|t| - 1] == '=' && t[..|t| - 1] == s + Pads(n - 1);
      StripsPads(s, n - 1);
    }
  }

  /** Stripping the padding and restoring it is lossless, whatever the length modulo 3. */
  lemma PaddingComesBack(key: seq<Byte>)
    ensures Clean(Payload(key)) && Padded(Payload(key)) == Encoded(key)
    ensures key != [] ==> Payload(key) != ""
  {
    var clean := EncodedShape(key);
    StripsPads(clean, (4 - |clean| % 4) % 4);
  }

  // ----- the split -------------------------------------------------------------------------------------------

  lemma {:induction false} DotAfter(s: string, rest: string)
    requires forall i | 0 <= i < |s| :: s[i] != '.'
    ensures FirstDot(s + "." + rest) == |s|
  {
    if s != "" {
      assert (s + "." + rest)[1..] == s[1..] + "." + rest;
      DotAfter(s[1..], rest);
    }
  }

  /** The payload alphabet has no dot, so the three parts come apart where they were joined. */
  lemma SplitsWhereJoined(version: string, payload: string, signature: string)
    requires forall i | 0 <= i < |version| :: version[i] != '.'
    requires forall i | 0 <= i < |payload| :: payload[i] != '.'
    ensures Split(version + "." + payload + "." + signature) == Some((version, payload, signature))
  {
    var tail := payload + "." + signature;
    var s := version + "." + payload + "." + signature;
    assert s == version + "." + tail;
    DotAfter(version, tail);
    DotAfter(payload, signature);
    assert s[|version| + 1..] == tail && s[..|version|] == version;
    assert tail[..|payload|] == payload && tail[|payload| + 1..] == signature;
  }

  // ----- the promises --------------------------------------------------------------------------------------------

  /** Opening a scope with the secret it was made with gives back every non-empty account key. */
  lemma ScopeRoundTrip(mac: string -> Hex, utf8: seq<Byte> -> bool, key: seq<Byte>)
    requires key != [] && utf8(key)
    ensures Opened(mac, utf8, Scope(mac, key)) == Account(key)
  {
    PaddingComesBack(key);
    DecodesEncoded(key);
    var payload := Payload(key);
    SplitsWhereJoined(VERSION, payload, mac(payload));
    hide Payload, Padded, Decoded, Encoded, Split;
    assert Scope(mac, key) == VERSION + "." + payload + "." + mac(payload);
  }

  /** So scopes of different accounts are different. */
  lemma ScopesAreDistinct(mac: string -> Hex, a: seq<Byte>, b: seq<Byte>)
    requires a != [] && b != [] && Scope(mac, a) == Scope(mac, b)
    ensures a == b
  {
    ScopeRoundTrip(mac, k => true, a);
    ScopeRoundTrip(mac, k => true, b);
  }

  /** Any other signature on a well-formed scope is refused, never an account. */
  lemma WrongSignatureIsRefused(mac: string -> Hex, utf8: seq<Byte> -> bool, key: seq<Byte>, signature: string)
    requires key != [] && signature != mac(Payload(key))
    ensures !Opened(mac, utf8, VERSION + "." + Payload(key) + "." + signature).Account?
  {
    PaddingComesBack(key);
    SplitsWhereJoined(VERSION, Payload(key), signature);
    hide Payload, Padded, Decoded, Encoded, Split;
  }

  /** The empty key is the one that does not come back. */
  lemma EmptyKeyIsRefused(mac: string -> Hex, utf8: seq<Byte> -> bool)
    ensures Opened(mac, utf8, Scope(mac, [])) == Invalid
  {
    PaddingComesBack([]);
    SplitsWhereJoined(VERSION, Payload([]), mac(Payload([])));
    assert Scope(mac, []) == VERSION + "." + Payload([]) + "." + mac(Payload([]));
    assert Payload([]) == "";
  }

  /**
   Every malformed scope is answered with the invalid-scope error except in one
   case: both parts are there, the version is right, and one of them is not ASCII.
   */
  lemma RaisesExactly(mac: string -> Hex, utf8: seq<Byte> -> bool, payload: string, signature: string)
    requires forall i | 0 <= i < |payload| :: payload[i] != '.'
    ensures Opened(mac, utf8, VERSION + "." + payload + "." + signature).Raises? <==>
              && payload != "" && signature != ""
              && ((exists c :: c in payload && c as int >= 128) || (exists c :: c in signature && c as int >= 128))
  {
    SplitsWhereJoined(VERSION, payload, signature);
    AsciiExactly(payload);
    AsciiExactly(signature);
    hide Padded, Decoded, Split, Ascii;
  }

  // ----- the alphabet and the exact set of accepted scopes -------------------------------------------------------

  /** The alphabet of RFC 4648, section 5: A to Z, a to z, 0 to 9, then - and _, each run without gaps. */
  lemma AlphabetExactly(v: nat)
    ensures Symbol(0) == 'A' && Symbol(25) == 'Z' && Symbol(26) == 'a' && Symbol(51) == 'z'
    ensures Symbol(52) == '0' && Symbol(61) == '9' && Symbol(62) == '-' && Symbol(63) == '_'
    ensures v < 63 && v !in {25, 51, 61, 62} ==> Symbol(v + 1) as int == Symbol(v) as int + 1
  {
  }

  /** And read back from there; `+` and `/` of the standard alphabet are read as `-` and `_`. */
  lemma ValueExactly(c: char, v: nat)
    ensures Value(c) == Some(v) <==>
              v < 64 && (c == Symbol(v) || (c == '+' && v == 62) || (c == '/' && v == 63))
  {
  }

  /** Padded to a full group, with zero bits behind the last byte. */
  predicate Canonical(bytes: nat, e: string) {
    && |e| == (bytes + 2) / 3 * 4
    && (bytes % 3 == 1 ==>
          |e| >= 4 && e[|e| - 1] == e[|e| - 2] == '=' && Value(e[|e| - 3]).Some? && Value(e[|e| - 3]).value % 16 == 0)
    && (bytes % 3 == 2 ==>
          |e| >= 4 && e[|e| - 1] == '=' && Value(e[|e| - 2]).Some? && Value(e[|e| - 2]).value % 4 == 0)
  }

  /** Four characters for every three bytes begun, and the one canonical ending. */
  lemma {:induction false} EncodedIsCanonical(key: seq<Byte>)
    ensures Canonical(|key|, Encoded(key))
  {
    if |key| < 3 {
      ShortIsCanonical(key);
    } else {
      EncodedGroup(key);
      hide Encoded, Canonical;
      EncodedIsCanonical(key[3..]);
      CanonicalExtends(|key|, Encoded(key), Encoded(key[3..]));
    }
  }

  lemma CanonicalExtends(bytes: nat, e: string, rest: string)
    requires bytes >= 3 && |e| == 4 + |rest| && e[4..] == rest && Canonical(bytes - 3, rest)
    ensures Canonical(bytes, e)
  {
    hide Value;
    assert bytes % 3 == (bytes - 3) % 3;
    assert forall k | 0 <= k < |rest| :: e[k + 4] == rest[k];
  }

  lemma ShortIsCanonical(key: seq<Byte>)
    requires |key| < 3
    ensures Canonical(|key|, Encoded(key))
  {
    if |key| == 1 {
      OneIsCanonical(key[0]);
      assert key == [key[0]];
    } else if |key| == 2 {
      TwoAreCanonical(key[0], key[1]);
      assert key == [key[0], key[1]];
    }
  }

  lemma OneIsCanonical(a: Byte)
    ensures Canonical(1, Encoded([a]))
  {
    BitsRejoin(a, 0, 0);
    hide Symbol, Value;
    assert Encoded([a]) == [Symbol(a / 4), Symbol(a % 4 * 16), '=', '='];
    hide Encoded;
    SymbolValue(a % 4 * 16);
  }

  lemma TwoAreCanonical(a: Byte, b: Byte)
    ensures Canonical(2, Encoded([a, b]))
  {
    BitsRejoin(a, b, 0);
    hide Symbol, Value;
    assert Encoded([a, b]) == [Symbol(a / 4), Symbol(a % 4 * 16 + b / 16), Symbol(b % 16 * 4), '='];
    hide Encoded;
    SymbolValue(b % 16 * 4);
  }

  lemma EncodedGroup(key: seq<Byte>)
    requires |key| >= 3
    ensures |Encoded(key)| == 4 + |Encoded(key[3..])| && Encoded(key)[4..] == Encoded(key[3..])
  {
    hide Symbol;
    BitsRejoin(key[0], key[1], key[2]);
  }

  /** A character outside both alphabets is skipped wherever it stands. */
  lemma {:induction false} SkipsForeign(s: string, c: char, rest: string, at: nat, left: nat, pads: nat)
    requires at < 4 && left < 64 && (at == 0 ==> left == 0) && (at == 2 ==> left < 16) && (at == 3 ==> left < 4)
    requires Value(c).None? && c != '='
    ensures DecodedFrom(s + [c] + rest, at, left, pads) == DecodedFrom(s + rest, at, left, pads)
    decreases |s|
  {
    hide Value, Cons;
    if s == "" {
      assert s + [c] + rest == [c] + rest && ([c] + rest)[1..] == rest && s + rest == rest;
    } else {
      assert (s + [c] + rest)[1..] == s[1..] + [c] + rest && (s + rest)[1..] == s[1..] + rest;
      if s[0] == '=' {
        if !(at >= 2 && at + pads + 1 >= 4) {
          SkipsForeign(s[1..], c, rest, at, left, if at >= 2 then pads + 1 else pads);
        }
      } else if Value(s[0]).None? {
        SkipsForeign(s[1..], c, rest, at, left, pads);
      } else {
        ValueRange(s[0]);
        var v := Value(s[0]).value;
        if at == 0 {
          SkipsForeign(s[1..], c, rest, 1, v, 0);
        } else if at == 1 {
          SkipsForeign(s[1..], c, rest, 2, v % 16, 0);
        } else if at == 2 {
          SkipsForeign(s[1..], c, rest, 3, v % 4, 0);
        } else {
          SkipsForeign(s[1..], c, rest, 0, 0, 0);
        }
      }
    }
  }

  lemma ValueRange(c: char)
    ensures Value(c).Some? ==> Value(c).value < 64
  {
  }

  /** Splitting and joining are inverse. */
  lemma JoinsWhereSplit(s: string, version: string, payload: string, signature: string)
    requires Split(s) == Some((version, payload, signature))
    ensures s == version + "." + (payload + "." + signature)
    ensures '.' !in version && '.' !in payload
  {
    var i := FirstDot(s);
    var rest := s[i + 1..];
    var j := FirstDot(rest);
    assert version == s[..i] && payload == rest[..j] && signature == rest[j + 1..];
    hide FirstDot, Split;
    RejoinAt(s, i);
    RejoinAt(rest, j);
    NoDotBefore(s, i);
    NoDotBefore(rest, j);
  }

  lemma RejoinAt(s: string, i: nat)
    requires i < |s| && s[i] == '.'
    ensures s == s[..i] + "." + s[i + 1..]
  {
  }

  lemma NoDotBefore(s: string, i: nat)
    requires i <= |s| && forall k | 0 <= k < i :: s[k] != '.'
    ensures '.' !in s[..i]
  {
  }

  /**
   A scope opens an account if and only if it is v2, a dot, a payload without dots,
   a dot and the payload's own signature, both ASCII and not empty, and the payload
   decodes to that non-empty key in valid UTF-8.
   */
  lemma OpensExactly(mac: string -> Hex, utf8: seq<Byte> -> bool, scope: string, key: seq<Byte>)
    ensures Opened(mac, utf8, scope) == Account(key) <==>
              exists payload: string :: Opens(mac, utf8, scope, payload, key)
  {
    hide Split, Decoded, Padded, Ascii;
    if Opened(mac, utf8, scope) == Account(key) {
      var (version, payload, signature) := Split(scope).value;
      JoinsWhereSplit(scope, version, payload, signature);
      PaddedExactly(payload);
      AsciiExactly(payload);
      assert version + "." + (payload + "." + signature) == version + "." + payload + "." + signature;
      assert "v2" + "." == "v2.";
      assert Opens(mac, utf8, scope, payload, key);
    }
    if payload: string :| Opens(mac, utf8, scope, payload, key) {
      ScopeOpens(mac, utf8, scope, payload, key);
    }
  }

  lemma ScopeOpens(mac: string -> Hex, utf8: seq<Byte> -> bool, scope: string, payload: string, key: seq<Byte>)
    requires Opens(mac, utf8, scope, payload, key)
    ensures Opened(mac, utf8, scope) == Account(key)
  {
    hide Split, Decoded, Padded, Ascii;
    PaddedExactly(payload);
    AsciiExactly(payload);
    assert forall i | 0 <= i < |payload| :: payload[i] in payload;
    SplitsWhereJoined("v2", payload, mac(payload));
    assert "v2" + "." == "v2.";
  }

  lemma AsciiExactly(s: string)
    ensures Ascii(s) <==> forall c | c in s :: c as int < 128
  {
    if forall c | c in s :: c as int < 128 {
      assert forall i | 0 <= i < |s| :: s[i] in s;
    }
  }

  predicate Opens(mac: string -> Hex, utf8: seq<Byte> -> bool, scope: string, payload: string, key: seq<Byte>) {
    && scope == "v2." + payload + "." + mac(payload)
    && payload != "" && (forall c | c in payload :: c != '.' && c as int < 128)
    && Decoded(payload + (if |payload| % 4 == 1 then "===" else if |payload| % 4 == 2 then "==" else if |payload| % 4 == 3 then "=" else ""))
       == Some(key)
    && utf8(key) && key != []
  }

  lemma PaddedExactly(s: string)
    ensures Padded(s) == s + (if |s| % 4 == 1 then "===" else if |s| % 4 == 2 then "==" else if |s| % 4 == 3 then "=" else "")
  {
    PadsAre();
    assert Pads(3) == Pads(2) + "=";
  }
}
