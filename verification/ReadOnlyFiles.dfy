/**
  The read modes: which file flows are kept out of the trace.
 */
module ReadOnlyFiles {
  import opened Types

  const PREFIXES: seq<string> :=
    ["/proc/", "/dev/", "/sys/", "//sys/", "/lib/", "/lib64/", "/usr/lib/", "/usr/lib64/"]

  /** Read-only by its open flags (the lowest bit), or only read from. */
  predicate ReadOnly(openFlags: int, opFlags: set<Op>) {
    openFlags % 2 == 1 || (ReadRecv in opFlags && WriteSend !in opFlags && Mmap !in opFlags)
  }

  predicate Listed(path: string) {
    exists i :: 0 <= i < |PREFIXES| && PREFIXES[i] <= path
  }

  /** The flow is kept out of the trace by the read mode. */
  predicate Suppressed(mode: ReadMode, f: DataFlow) {
    && f.rec.subject.File? && !mode.ReadsEnabled?
    && ReadOnly(f.rec.subject.openFlags, f.rec.opFlags)
    && (mode.ReadsDisabled? || Listed(f.flowkey))
  }

  // ------------------------------------------------------------- the two tests

  method PrefixMatch(path: string, prefix: string) returns (r: bool)
    ensures r <==> prefix <= path
  {
    if |path| < |prefix| {
      return false;
    }
    var i := 0;
    while i < |prefix|
      invariant i <= |prefix| && prefix[..i] == path[..i]
    {
      if path[i] != prefix[i] {
        return false;
      }
      i := i + 1;
    }
    return true;
  }

  /** The test made before every file flow is written. */
  method IsSuppressed(mode: ReadMode, f: DataFlow) returns (match_: bool)
    ensures match_ <==> Suppressed(mode, f)
  {
    match_ := false;
    if f.rec.subject.File? && !mode.ReadsEnabled? && ReadOnly(f.rec.subject.openFlags, f.rec.opFlags) {
      if mode.ReadsSelect? {
        var i := 0;
        while i < |PREFIXES|
          invariant i <= |PREFIXES| && forall j :: 0 <= j < i ==> !(PREFIXES[j] <= f.flowkey)
        {
          var m := PrefixMatch(f.flowkey, PREFIXES[i]);
          if m {
            return true;
          }
          i := i + 1;
        }
      } else {
        match_ := true;
      }
    }
  }

  // -------------------------------------------------------------------- itoa

  function Pow10(n: nat): nat { if n == 0 then 1 else 10 * Pow10(n - 1) }

  /** Prints a number backwards into the end of a buffer; the result is the position of its
      first character, and the text ends before the last position, which holds a NUL. */
  method PrintInt(val: int, buf: array<char>) returns (start: nat)
    requires buf.Length == 32 && -0x8000_0000 < val < 0x8000_0000
    modifies buf
    ensures start <= 31 && buf[start..31] == Itoa(val) && buf[31] == old(buf[31])
  {
    var i := 30;
    var neg := val < 0;
    var v: nat := if neg then -val else val;
    ghost var v0 := v;
    assert Pow10(10) == 10_000_000_000;
    while v != 0 && i != 0
      invariant 20 <= i <= 30 && v < Pow10(i - 20) && buf[31] == old(buf[31])
      invariant Digits(v0) == Digits(v) + buf[i + 1..31]
    {
      ghost var done := buf[i + 1..31];
      buf[i] := Digit(v % 10);
      assert buf[i..31] == [Digit(v % 10)] + done;
      i, v := i - 1, v / 10;
    }
    if neg {
      ghost var digits := buf[i + 1..31];
      buf[i] := '-';
      assert buf[i..31] == "-" + digits;
      return i;
    }
    return i + 1;
  }

  /** The number a decimal text stands for. */
  function Read(s: string): int {
    if s == "" then 0 else 10 * Read(s[..|s| - 1]) + (s[|s| - 1] as int - 48)
  }

  lemma {:induction false} DigitsRead(n: nat)
    ensures Read(Digits(n)) == n && forall c :: c in Digits(n) ==> 48 <= c as int <= 57
    ensures n > 0 ==> Digits(n) != "" && Digits(n)[0] as int != 48
  {
    if n > 0 {
      DigitsRead(n / 10);
      assert Digits(n)[..|Digits(n)| - 1] == Digits(n / 10);
    }
  }

  /** A printed number can be read back; it is printed with digits only, after a sign if it is negative,
      and without leading zeros. */
  lemma ItoaReads(val: int)
    ensures var s := Itoa(val);
            var digits := if val < 0 then s[1..] else s;
            && val == (if val < 0 then -Read(digits) else Read(digits))
            && (val < 0 <==> s != "" && s[0] == '-') && (val == 0 <==> s == "")
            && (forall c :: c in digits ==> 48 <= c as int <= 57) && (digits != "" ==> digits[0] as int != 48)
  {
    DigitsRead(if val < 0 then -val else val);
    var s := Itoa(val);
    if val < 0 {
      assert s[1..] == Digits(-val);
    } else if s != "" {
      assert s[0] in Digits(val);
    }
  }

  lemma DigitsHaveNoSlash(n: nat)
    ensures '/' !in Digits(n)
  {
    if n > 0 { DigitsHaveNoSlash(n / 10); }
  }

  lemma ItoaHasNoSlash(val: int)
    ensures '/' !in Itoa(val)
  {
    DigitsHaveNoSlash(if val < 0 then -val else val);
  }

  /** No listed prefix is the beginning of another. */
  lemma PrefixesApart(i: nat, j: nat)
    requires i < |PREFIXES| && j < |PREFIXES| && PREFIXES[j] <= PREFIXES[i]
    ensures i == j
  {
    var p, q := PREFIXES[i], PREFIXES[j];
    assert q[1] == p[1] && q[4] == p[4] && (|q| > 8 ==> q[8] == p[8]);
  }
}
