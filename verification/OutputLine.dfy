/** The line printed for a file (src/processor.c, processor_print_hash). */
module OutputLine {
  import opened Requests

  const OUTPUT_MAX_SIZE: nat := 512
  const INT_MAX: nat := 0x7fff_ffff

  // ---------------------------------------------------------------------------
  // Hexadecimal and decimal digits

  /** hexdigits[n] */
  function Digit(n: nat): (c: char)
    requires n < 16
    ensures Nibble(c) == n && c != ','
  {
    if n < 10 then '0' + n as char else 'a' + (n - 10) as char
  }

  function HexPair(b: Byte): string {
    [Digit(b / 16), Digit(b % 16)]
  }

  function Hex(hash: Bytes): string {
    if hash == [] then "" else Hex(hash[..|hash| - 1]) + HexPair(hash[|hash| - 1])
  }

  function Nibble(c: char): (n: nat)
    ensures n < 16
  {
    if '0' <= c <= '9' then c as int - '0' as int
    else if 'a' <= c <= 'f' then c as int - 'a' as int + 10
    else 0
  }

  function UnHex(s: string): Bytes {
    if |s| < 2 then [] else UnHex(s[..|s| - 2]) + [16 * Nibble(s[|s| - 2]) + Nibble(s[|s| - 1])]
  }

  lemma {:induction false} HexDecodes(hash: Bytes)
    ensures |Hex(hash)| == 2 * |hash| && UnHex(Hex(hash)) == hash
  {
    if hash != [] {
      var front, b := hash[..|hash| - 1], hash[|hash| - 1];
      HexDecodes(front);
      UnHexLast(Hex(front), b);
      assert front + [b] == hash;
    }
  }

  lemma UnHexLast(s: string, b: Byte)
    ensures |s + HexPair(b)| == |s| + 2 && UnHex(s + HexPair(b)) == UnHex(s) + [b]
  {
    assert (s + HexPair(b))[..|s|] == s;
  }

  function Decimal(n: nat): string {
    if n < 10 then [Digit(n)] else Decimal(n / 10) + [Digit(n % 10)]
  }

  function Value(s: string): nat {
    if s == "" then 0 else 10 * Value(s[..|s| - 1]) + Nibble(s[|s| - 1])
  }

  lemma {:induction false} DecimalDecodes(n: nat)
    ensures Value(Decimal(n)) == n && ',' !in Decimal(n)
  {
    if n < 10 {
      assert Decimal(n)[..0] == "" && Value("") == 0;
    } else {
      DecimalDecodes(n / 10);
      assert Decimal(n)[..|Decimal(n)| - 1] == Decimal(n / 10);
    }
  }

  lemma {:induction false} DecimalLength(n: nat, k: nat, bound: nat)
    requires k > 0 && bound == Pow10(k) && n < bound
    ensures |Decimal(n)| <= k
    decreases k
  {
    if n >= 10 {
      DecimalLength(n / 10, k - 1, bound / 10);
    }
  }

  function Pow10(k: nat): nat {
    if k == 0 then 1 else 10 * Pow10(k - 1)
  }

  lemma IntLength(n: nat)
    requires n <= INT_MAX
    ensures |Decimal(n)| <= 10
  {
    assert Pow10(4) == 10_000 && Pow10(7) == 10_000_000 && Pow10(10) == 10_000_000_000;
    DecimalLength(n, 10, 10_000_000_000);
  }

  // ---------------------------------------------------------------------------
  // The line

  const HEAD: string := "{ \"processor\": "
  const REQ: string := ", \"req_id\": "
  const FILE: string := ", \"file\": \""
  const HASH: string := "\", \"hash\": \""
  const TAIL: string := "\" }\n"

  function Prefix(processor: nat, req: nat, path: string): string {
    HEAD + (Decimal(processor) + (REQ + (Decimal(req) + (FILE + (path + HASH)))))
  }

  function Line(processor: nat, req: nat, path: string, hash: Bytes): string {
    Prefix(processor, req, path) + Hex(hash) + TAIL
  }

  /** snprintf of a string that fits, with its terminator. */
  method Put(buf: array<char>, at: nat, s: string) returns (end: nat)
    requires at + |s| < buf.Length
    modifies buf
    ensures end == at + |s| && buf[..end] == old(buf[..at]) + s
  {
    end := at;
    while end < at + |s|
      invariant at <= end <= at + |s|
      invariant buf[..end] == old(buf[..at]) + s[..end - at]
    {
      buf[end] := s[end - at];
      end := end + 1;
    }
    buf[end] := '\0';
  }

  /** The loop over the hash. */
  method PutHex(buf: array<char>, at: nat, hash: Bytes) returns (end: nat)
    requires at + 2 * |hash| <= buf.Length
    modifies buf
    ensures end == at + 2 * |hash| && buf[..end] == old(buf[..at]) + Hex(hash)
  {
    end := at;
    var j := 0;
    while j < |hash|
      invariant j <= |hash| && end == at + 2 * j
      invariant buf[..end] == old(buf[..at]) + Hex(hash[..j])
    {
      assert hash[..j + 1][..j] == hash[..j];
      buf[end], buf[end + 1] := Digit(hash[j] / 16), Digit(hash[j] % 16);
      end := end + 2;
      j := j + 1;
    }
    assert hash[..j] == hash;
  }

  lemma PrefixLength(processor: nat, req: nat, path: string)
    requires processor <= INT_MAX && req <= INT_MAX
    ensures |Prefix(processor, req, path)| <= 70 + |path|
  {
    IntLength(processor);
    IntLength(req);
    assert |HEAD| + |REQ| + |FILE| + |HASH| == 50;
  }

  // ---------------------------------------------------------------------------
  // Reading it back

  /** What a line says. */
  datatype Printed = Printed(processor: nat, req: nat, path: string, hash: Bytes)

  /** The text before the first comma. */
  function Field(s: string): (f: string)
    ensures f <= s
  {
    if s == "" || s[0] == ',' then "" else [s[0]] + Field(s[1..])
  }

  /** A reader of the line's own text, written without the printer: the number after
      `"processor": `, the number after `"req_id": `, and after `"file": "` everything up to the
      last part, which holds the n bytes of the hash in hexadecimal. */
  function ReadLine(line: string, n: nat): Option<Printed> {
    if "{ \"processor\": " <= line then ReadProcessor(line[15..], n) else None
  }

  function ReadProcessor(s: string, n: nat): Option<Printed> {
    var number := Field(s);
    var rest := s[|number|..];
    if ", \"req_id\": " <= rest then ReadReq(Value(number), rest[12..], n) else None
  }

  function ReadReq(processor: nat, s: string, n: nat): Option<Printed> {
    var number := Field(s);
    var rest := s[|number|..];
    if ", \"file\": \"" <= rest then ReadFile(processor, Value(number), rest[11..], n) else None
  }

  function ReadFile(processor: nat, req: nat, s: string, n: nat): Option<Printed> {
    var size := 12 + 2 * n + 4;
    if |s| < size then None
    else
      var path, last := s[..|s| - size], s[|s| - size..];
      if last[..12] == "\", \"hash\": \"" && last[12 + 2 * n..] == "\" }\n"
      then Some(Printed(processor, req, path, UnHex(last[12..12 + 2 * n]))) else None
  }

  lemma {:induction false} FieldOf(digits: string, rest: string)
    requires ',' !in digits && rest != "" && rest[0] == ','
    ensures Field(digits + rest) == digits
  {
    if digits == "" {
      assert digits + rest == rest;
    } else {
      FieldOf(digits[1..], rest);
      assert (digits + rest)[1..] == digits[1..] + rest;
      assert digits == [digits[0]] + digits[1..];
    }
  }

  lemma FileReads(processor: nat, req: nat, path: string, hash: Bytes)
    ensures ReadFile(processor, req, path + (HASH + (Hex(hash) + TAIL)), |hash|)
         == Some(Printed(processor, req, path, hash))
  {
    HexDecodes(hash);
    assert |HASH| == 12 && |TAIL| == 4;
    Parts(path, HASH, Hex(hash), TAIL);
  }

  lemma Parts(path: string, a: string, hex: string, b: string)
    ensures var s, n := path + (a + (hex + b)), |a| + |hex| + |b|;
            && |s| == |path| + n && s[..|s| - n] == path
            && var last := s[|s| - n..];
               last[..|a|] == a && last[|a|..|a| + |hex|] == hex && last[|a| + |hex|..] == b
  {
    var last := a + (hex + b);
    var s := path + last;
    assert s[..|path|] == path && s[|path|..] == last;
    assert last[|a|..|a| + |hex|] == hex && last[|a| + |hex|..] == b;
  }

  lemma ReqReads(processor: nat, req: nat, path: string, hash: Bytes)
    ensures ReadReq(processor, Decimal(req) + (FILE + (path + (HASH + (Hex(hash) + TAIL)))), |hash|)
         == Some(Printed(processor, req, path, hash))
  {
    DecimalDecodes(req);
    var text := path + (HASH + (Hex(hash) + TAIL));
    FieldOf(Decimal(req), FILE + text);
    assert (Decimal(req) + (FILE + text))[|Decimal(req)|..] == FILE + text;
    assert (FILE + text)[11..] == text;
    FileReads(processor, req, path, hash);
  }

  lemma ProcessorReads(processor: nat, req: nat, path: string, hash: Bytes)
    ensures ReadProcessor(Decimal(processor)
                          + (REQ + (Decimal(req) + (FILE + (path + (HASH + (Hex(hash) + TAIL)))))), |hash|)
         == Some(Printed(processor, req, path, hash))
  {
    DecimalDecodes(processor);
    var text := Decimal(req) + (FILE + (path + (HASH + (Hex(hash) + TAIL))));
    FieldOf(Decimal(processor), REQ + text);
    assert (Decimal(processor) + (REQ + text))[|Decimal(processor)|..] == REQ + text;
    assert (REQ + text)[12..] == text;
    ReqReads(processor, req, path, hash);
  }

  lemma Regroup(a: string, b: string, c: string, d: string, e: string, path: string, f: string, hex: string, g: string)
    ensures a + (b + (c + (d + (e + (path + f))))) + hex + g == a + (b + (c + (d + (e + (path + (f + (hex + g)))))))
  {
    assert (path + f) + (hex + g) == path + (f + (hex + g));
    assert (e + (path + f)) + (hex + g) == e + ((path + f) + (hex + g));
    assert (d + (e + (path + f))) + (hex + g) == d + ((e + (path + f)) + (hex + g));
    assert (c + (d + (e + (path + f)))) + (hex + g) == c + ((d + (e + (path + f))) + (hex + g));
    assert (b + (c + (d + (e + (path + f))))) + (hex + g) == b + ((c + (d + (e + (path + f)))) + (hex + g));
  }

  /** Whatever the path holds, quotes and commas included, a line reads as the processor, the
      request, the path and the hash it was printed for. */
  lemma LineReads(processor: nat, req: nat, path: string, hash: Bytes)
    ensures ReadLine(Line(processor, req, path, hash), |hash|) == Some(Printed(processor, req, path, hash))
  {
    Regroup(HEAD, Decimal(processor), REQ, Decimal(req), FILE, path, HASH, Hex(hash), TAIL);
    var text := Decimal(processor) + (REQ + (Decimal(req) + (FILE + (path + (HASH + (Hex(hash) + TAIL))))));
    assert (HEAD + text)[15..] == text;
    ProcessorReads(processor, req, path, hash);
  }

  /** So two lines that look alike were printed for the same. */
  lemma LineDecodes(p1: nat, r1: nat, path1: string, hash1: Bytes, p2: nat, r2: nat, path2: string, hash2: Bytes)
    requires |hash1| == |hash2| && Line(p1, r1, path1, hash1) == Line(p2, r2, path2, hash2)
    ensures p1 == p2 && r1 == r2 && path1 == path2 && hash1 == hash2
  {
    LineReads(p1, r1, path1, hash1);
    LineReads(p2, r2, path2, hash2);
  }

  /** The line is complete and stays, terminator included, within the output buffer. */
  method FillLine(processor: nat, req: nat, path: string, hash: Bytes) returns (written: string)
    requires processor <= INT_MAX && req <= INT_MAX && |path| < MAX_FILENAME_LEN && |hash| == HASH_LEN
    ensures written == Line(processor, req, path, hash) && |written| < OUTPUT_MAX_SIZE
  {
    PrefixLength(processor, req, path);
    assert |TAIL| == 4;
    var debug := new char[OUTPUT_MAX_SIZE];
    var mlen := Put(debug, 0, Prefix(processor, req, path));
    mlen := PutHex(debug, mlen, hash);
    mlen := Put(debug, mlen, TAIL);
    written := debug[..mlen];
  }

  /** processor_print_hash: the bytes written fit the buffer and read as processor, request, path
      and hash. */
  method PrintHash(processor: nat, req: nat, path: string, hash: Bytes) returns (written: string)
    requires processor <= INT_MAX && req <= INT_MAX && |path| < MAX_FILENAME_LEN && |hash| == HASH_LEN
    ensures |written| < OUTPUT_MAX_SIZE
    ensures ReadLine(written, HASH_LEN) == Some(Printed(processor, req, path, hash))
    ensures written == Line(processor, req, path, hash)
  {
    written := FillLine(processor, req, path, hash);
    LineReads(processor, req, path, hash);
  }
}
