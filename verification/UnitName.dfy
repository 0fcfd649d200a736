/** The systemd unit names that keep jobs apart: `unit_name` in src/executor/shell.rs. */
module UnitName {
  import opened Wrappers

  type Byte = n: nat | n < 256

  predicate IsDigit(b: Byte) {
    '0' as nat <= b <= '9' as nat
  }

  predicate IsAlphanumeric(b: Byte) {
    IsDigit(b) || 'a' as nat <= b <= 'z' as nat || 'A' as nat <= b <= 'Z' as nat
  }

  /** Bytes a unit name takes as they are. */
  predicate IsPlain(b: Byte) {
    IsAlphanumeric(b) || b == '-' as nat
  }

  /** A hex digit, lower case. */
  function HexDigit(n: nat): char
    requires n < 16
  {
    if n < 10 then ('0' as nat + n) as char else ('a' as nat + (n - 10)) as char
  }

  lemma HexDigitIs(n: nat)
    requires n < 16
    ensures HexDigit(n) == "0123456789abcdef"[n]
  {
  }

  function EscapeByte(b: Byte): string {
    if IsPlain(b) then [b as char] else ['_', HexDigit(b / 16), HexDigit(b % 16)]
  }

  /** Letters, digits and hyphens are themselves; any other byte is an underscore and its two hex digits. */
  lemma EscapedByteIs(b: Byte)
    ensures var digits := "0123456789abcdef";
            var plain := 48 <= b <= 57 || 65 <= b <= 90 || 97 <= b <= 122 || b == 45;
            EscapeByte(b) == if plain then [b as char] else "_" + [digits[b / 16]] + [digits[b % 16]]
  {
    HexDigitIs(b / 16);
    HexDigitIs(b % 16);
  }

  function Escape(id: seq<Byte>): string {
    if id == [] then "" else EscapeByte(id[0]) + Escape(id[1..])
  }

  function UnitName(runId: seq<Byte>, jobId: seq<Byte>): string {
    "roster-" + Escape(runId) + "-" + Escape(jobId)
  }

  // The escaping undone

  function HexValue(c: char): Option<nat> {
    if '0' <= c <= '9' then Some(c as nat - '0' as nat)
    else if 'a' <= c <= 'f' then Some(c as nat - 'a' as nat + 10)
    else None
  }

  /** The bytes a text was escaped from, or None for a text that is no escaping. */
  function Unescape(text: string): Option<seq<Byte>>
    decreases |text|
  {
    if text == "" then Some([])
    else if text[0] == '_' then
      if |text| < 3 || HexValue(text[1]).None? || HexValue(text[2]).None? then None
      else Preceded(16 * HexValue(text[1]).value + HexValue(text[2]).value, Unescape(text[3..]))
    else if text[0] as nat < 256 && IsPlain(text[0] as nat) then Preceded(text[0] as nat, Unescape(text[1..]))
    else None
  }

  function Preceded(b: nat, rest: Option<seq<Byte>>): Option<seq<Byte>> {
    if b < 256 && rest.Some? then Some([b] + rest.value) else None
  }

  lemma HexRoundTrip(n: nat)
    requires n < 16
    ensures HexValue(HexDigit(n)) == Some(n)
  {
  }

  /** Unescaping undoes escaping, for every byte string. */
  lemma {:induction false} EscapeRoundTrip(id: seq<Byte>)
    ensures Unescape(Escape(id)) == Some(id)
    decreases |id|
  {
    if id != [] {
      var b, rest := id[0], Escape(id[1..]);
      EscapeRoundTrip(id[1..]);
      var text := EscapeByte(b) + rest;
      assert [b] + id[1..] == id;
      if IsPlain(b) {
        var c := b as char;
        assert text[0] == c && c as nat == b && c != '_' && text[1..] == rest;
      } else {
        HexRoundTrip(b / 16);
        HexRoundTrip(b % 16);
        assert text[0] == '_' && text[1] == HexDigit(b / 16) && text[2] == HexDigit(b % 16) && text[3..] == rest;
        assert 16 * (b / 16) + b % 16 == b;
      }
    }
  }

  /** Different ids are escaped differently. */
  lemma EscapeIsInjective(a: seq<Byte>, b: seq<Byte>)
    requires Escape(a) == Escape(b)
    ensures a == b
  {
    EscapeRoundTrip(a);
    EscapeRoundTrip(b);
  }

  /** Every character of an escaping is one a unit name can hold. */
  lemma {:induction false} EscapeIsAllowed(id: seq<Byte>, i: nat)
    requires i < |Escape(id)|
    ensures Escape(id)[i] == '_' || (Escape(id)[i] as nat < 128 && IsPlain(Escape(id)[i] as nat))
    decreases |id|
  {
    var first := EscapeByte(id[0]);
    if i >= |first| {
      EscapeIsAllowed(id[1..], i - |first|);
    }
  }

  // Run ids

  predicate IsHex(b: Byte) {
    IsDigit(b) || 'a' as nat <= b <= 'f' as nat
  }

  /** A hyphenated UUID: section 4 of RFC 9562. */
  predicate IsUuid(id: seq<Byte>) {
    |id| == 36 && forall i | 0 <= i < 36 :: if i in {8, 13, 18, 23} then id[i] == '-' as nat else IsHex(id[i])
  }

  function Bytes(text: string): seq<Byte>
    requires forall i | 0 <= i < |text| :: text[i] < 256 as char
  {
    seq(|text|, i requires 0 <= i < |text| => text[i] as nat)
  }

  const QUALIFY := "qualify-"

  /** A qualification's run: `qualify-` and a UUID without hyphens. */
  predicate IsQualification(id: seq<Byte>) {
    |id| == 40 && id[..8] == Bytes(QUALIFY) && forall i | 8 <= i < 40 :: IsHex(id[i])
  }

  predicate IsRunId(id: seq<Byte>) {
    IsUuid(id) || IsQualification(id)
  }

  lemma {:induction false} PlainStays(id: seq<Byte>)
    requires forall i | 0 <= i < |id| :: IsPlain(id[i])
    ensures |Escape(id)| == |id| && forall i | 0 <= i < |id| :: Escape(id)[i] as nat == id[i]
    decreases |id|
  {
    if id != [] {
      PlainStays(id[1..]);
    }
  }

  lemma RunIdsArePlain(id: seq<Byte>)
    requires IsRunId(id)
    ensures forall i | 0 <= i < |id| :: IsPlain(id[i])
  {
    if IsQualification(id) {
      forall i | 0 <= i < |id| ensures IsPlain(id[i]) {
        if i < 8 {
          assert id[i] == id[..8][i] == QUALIFY[i] as nat;
        }
      }
    }
  }

  /** The two kinds of run id differ in their first byte. */
  lemma KindsDiffer(a: seq<Byte>, b: seq<Byte>)
    requires IsUuid(a) && IsQualification(b)
    ensures a[0] != b[0]
  {
    assert b[0] == b[..8][0] == QUALIFY[0] as nat;
  }

  /** Texts split at the same place are equal part by part. */
  lemma PartsEqual(a: string, restA: string, b: string, restB: string)
    requires |a| == |b| && "roster-" + a + "-" + restA == "roster-" + b + "-" + restB
    ensures a == b && restA == restB
  {
    var textA, textB, n := "roster-" + a + "-" + restA, "roster-" + b + "-" + restB, |a|;
    assert a == textA[7..7 + n] && b == textB[7..7 + n];
    assert restA == textA[8 + n..] && restB == textB[8 + n..];
  }

  lemma FirstByte(id: seq<Byte>, rest: string)
    requires IsRunId(id)
    ensures |Escape(id)| == |id| && ("roster-" + Escape(id) + "-" + rest)[7] as nat == id[0]
  {
    RunIdsArePlain(id);
    PlainStays(id);
  }

  /** '-' separates and is a legal byte too, but run ids of one kind have one length, so jobs never share a unit name. */
  lemma UnitNamesDiffer(runA: seq<Byte>, jobA: seq<Byte>, runB: seq<Byte>, jobB: seq<Byte>)
    requires IsRunId(runA) && IsRunId(runB) && UnitName(runA, jobA) == UnitName(runB, jobB)
    ensures runA == runB && jobA == jobB
  {
    FirstByte(runA, Escape(jobA));
    FirstByte(runB, Escape(jobB));
    if IsUuid(runA) && IsQualification(runB) {
      KindsDiffer(runA, runB);
    } else if IsQualification(runA) && IsUuid(runB) {
      KindsDiffer(runB, runA);
    }
    PartsEqual(Escape(runA), Escape(jobA), Escape(runB), Escape(jobB));
    EscapeIsInjective(runA, runB);
    EscapeIsInjective(jobA, jobB);
  }

  /** With run ids of any form they could: `a-b` with `c` and `a` with `b-c`. */
  lemma UnitNamesCanCollide()
    ensures UnitName(Bytes("a-b"), Bytes("c")) == UnitName(Bytes("a"), Bytes("b-c"))
  {
    var a, b, c, ab, bc := Bytes("a"), Bytes("b"), Bytes("c"), Bytes("a-b"), Bytes("b-c");
    PlainStays(a);
    PlainStays(c);
    PlainStays(ab);
    PlainStays(bc);
    assert Escape(a) == "a" && Escape(c) == "c" && Escape(ab) == "a-b" && Escape(bc) == "b-c";
    assert "roster-" + "a-b" + "-" + "c" == "roster-" + "a" + "-" + "b-c";
  }
}
