/** The line parser of CPU.load: each line of the program text is cut at its
    first '#', stripped of whitespace, skipped when nothing is left, and otherwise
    read as a base-2 literal that becomes the next memory byte from address 0 on. */
module Loader {
  import opened Machine

  /** The characters str.strip() removes: those for which Python's str.isspace() holds. */
  predicate IsSpace(c: char) {
    var n := c as int;
    if n <= 0x20 then 0x09 <= n <= 0x0D || 0x1C <= n
    else 0x85 <= n && IsWideSpace(n)
  }

  /** The whitespace code points above U+0020. */
  predicate IsWideSpace(n: int) {
    n == 0x85 || n == 0xA0 || n == 0x1680 || 0x2000 <= n <= 0x200A || n == 0x2028 || n == 0x2029 ||
    n == 0x202F || n == 0x205F || n == 0x3000
  }

  /** line.split("#")[0]: everything before the first '#'. */
  function BeforeComment(line: string): (r: string)
    ensures r <= line
    ensures '#' !in r
    ensures |r| < |line| ==> line[|r|] == '#'
  {
    if line == [] || line[0] == '#' then [] else [line[0]] + BeforeComment(line[1..])
  }

  function TrimLeft(s: string): (r: string)
    ensures |r| <= |s|
  {
    if s != [] && IsSpace(s[0]) then TrimLeft(s[1..]) else s
  }

  function TrimRight(s: string): (r: string)
    ensures |r| <= |s|
  {
    if s != [] && IsSpace(s[|s| - 1]) then TrimRight(s[..|s| - 1]) else s
  }

  /** str.strip(): the text between the leading and the trailing whitespace. */
  function Strip(s: string): string {
    TrimRight(TrimLeft(s))
  }

  lemma {:induction false} TrimLeftSpec(s: string)
    ensures TrimLeft(s) == s[|s| - |TrimLeft(s)|..]
    ensures forall i :: 0 <= i < |s| - |TrimLeft(s)| ==> IsSpace(s[i])
    ensures TrimLeft(s) != [] ==> !IsSpace(TrimLeft(s)[0])
    decreases |s|
  {
    if s != [] && IsSpace(s[0]) {
      TrimLeftSpec(s[1..]);
      forall i | 1 <= i < |s| - |TrimLeft(s)| ensures IsSpace(s[i]) {
        assert s[i] == s[1..][i - 1];
      }
    }
  }

  lemma {:induction false} TrimRightSpec(s: string)
    ensures TrimRight(s) == s[..|TrimRight(s)|]
    ensures forall i :: |TrimRight(s)| <= i < |s| ==> IsSpace(s[i])
    ensures TrimRight(s) != [] ==> !IsSpace(TrimRight(s)[|TrimRight(s)| - 1])
    decreases |s|
  {
    if s != [] && IsSpace(s[|s| - 1]) {
      TrimRightSpec(s[..|s| - 1]);
      forall i | |TrimRight(s)| <= i < |s| - 1 ensures IsSpace(s[i]) {
        assert s[i] == s[..|s| - 1][i];
      }
    }
  }

  /** Strip(s) is the slice s[i..j] such that everything outside it is whitespace
      and, when it is not empty, it neither starts nor ends with whitespace. */
  lemma StripSpec(s: string)
    ensures exists i, j :: 0 <= i <= j <= |s| && Strip(s) == s[i..j] &&
              (forall k :: 0 <= k < i || j <= k < |s| ==> IsSpace(s[k]))
    ensures Strip(s) != [] ==> !IsSpace(Strip(s)[0]) && !IsSpace(Strip(s)[|Strip(s)| - 1])
  {
    var l := TrimLeft(s);
    TrimLeftSpec(s);
    TrimRightSpec(l);
    var i := |s| - |l|;
    var j := i + |TrimRight(l)|;
    assert Strip(s) == s[i..j];
    forall k | j <= k < |s| ensures IsSpace(s[k]) {
      assert s[k] == l[k - i];
    }
  }

  /** The literals int(num, 2) is given here: digits '0' and '1' only. */
  predicate IsBinary(t: string) {
    forall i :: 0 <= i < |t| ==> t[i] == '0' || t[i] == '1'
  }

  function Pow2(n: nat): (p: nat)
    ensures p >= 1
  {
    if n == 0 then 1 else 2 * Pow2(n - 1)
  }

  /** int(num, 2) on a string of binary digits. */
  function BinaryValue(t: string): (v: nat)
    requires IsBinary(t)
    ensures v < Pow2(|t|)
    decreases |t|
  {
    if t == [] then 0
    else 2 * BinaryValue(t[..|t| - 1]) + (if t[|t| - 1] == '1' then 1 else 0)
  }

  /** What one line of the program text contributes. */
  datatype Line = Blank | Value(v: nat) | Invalid(text: string)

  /** The text of a line that int(num, 2) would be given: before the first '#', stripped. */
  function LiteralOf(line: string): string {
    Strip(BeforeComment(line))
  }

  /** A line is blank when its literal is empty, a value when the literal is a
      non-empty string of binary digits, and invalid when some character of the
      literal is not a binary digit. */
  function ParseLine(line: string): (l: Line)
    ensures l.Blank? <==> LiteralOf(line) == ""
    ensures l.Value? ==> IsBinary(LiteralOf(line)) && l.v < Pow2(|LiteralOf(line)|)
    ensures l.Invalid? ==> l.text == LiteralOf(line)
    ensures l.Invalid? ==> exists i :: 0 <= i < |l.text| && l.text[i] != '0' && l.text[i] != '1'
  {
    var num := LiteralOf(line);
    if num == "" then Blank
    else if IsBinary(num) then Value(BinaryValue(num))
    else Invalid(num)
  }

  /** The bytes written to ram[0], ram[1], ... and the exception that stopped the
      loop, if any: a malformed literal, or a 257th value whose ram write fails. */
  datatype Loaded = Loaded(bytes: seq<int>, error: Option<Fault>)

  /** One iteration of the loop in load(): what `line` adds to what was loaded before it. */
  function Feed(d: Loaded, line: string): (e: Loaded)
    ensures d.error.Some? ==> e == d
    ensures d.bytes <= e.bytes && |e.bytes| <= |d.bytes| + 1
  {
    if d.error.Some? then d
    else
      match ParseLine(line)
      case Blank => d
      case Invalid(text) => Loaded(d.bytes, Some(InvalidLiteral(text)))
      case Value(v) =>
        if |d.bytes| < RamSize then Loaded(d.bytes + [v], None)
        else Loaded(d.bytes, Some(RamIndexError(|d.bytes|)))
  }

  function Decode(lines: seq<string>): (d: Loaded)
    ensures |d.bytes| <= RamSize
    ensures forall i :: 0 <= i < |d.bytes| ==> d.bytes[i] >= 0
    decreases |lines|
  {
    if lines == [] then Loaded([], None)
    else Feed(Decode(lines[..|lines| - 1]), lines[|lines| - 1])
  }

  lemma FeedValue(d: Loaded, line: string, v: nat)
    requires d.error == None && |d.bytes| < RamSize && ParseLine(line) == Value(v)
    ensures Feed(d, line) == Loaded(d.bytes + [v], None)
  {
  }

  lemma DecodeSnoc(lines: seq<string>, line: string)
    ensures Decode(lines + [line]) == Feed(Decode(lines), line)
  {
    assert (lines + [line])[..|lines|] == lines;
  }

  /** Appending one line to lines that loaded without error: the line is fed to that result. */
  lemma NextLine(lines: seq<string>, i: nat, bytes: seq<int>)
    requires i < |lines| && Decode(lines[..i]) == Loaded(bytes, None)
    ensures Decode(lines[..i + 1]) == Feed(Loaded(bytes, None), lines[i])
  {
    assert lines[..i + 1] == lines[..i] + [lines[i]];
    DecodeSnoc(lines[..i], lines[i]);
  }

  /** load() skips a line whose stripped text is empty. */
  lemma LoadBlank(lines: seq<string>, i: nat, bytes: seq<int>)
    requires i < |lines| && Decode(lines[..i]) == Loaded(bytes, None)
    requires LiteralOf(lines[i]) == ""
    ensures Decode(lines[..i + 1]) == Loaded(bytes, None)
  {
    NextLine(lines, i, bytes);
  }

  /** int(num, 2) raises on a text that is not binary, and that ends the load. */
  lemma LoadInvalid(lines: seq<string>, i: nat, bytes: seq<int>)
    requires i < |lines| && Decode(lines[..i]) == Loaded(bytes, None)
    requires LiteralOf(lines[i]) != "" && !IsBinary(LiteralOf(lines[i]))
    ensures Decode(lines) == Loaded(bytes, Some(InvalidLiteral(LiteralOf(lines[i]))))
  {
    NextLine(lines, i, bytes);
    DecodeErrorSticks(lines, i + 1);
  }

  /** A value with no address left raises IndexError, and that ends the load. */
  lemma LoadFull(lines: seq<string>, i: nat, bytes: seq<int>)
    requires i < |lines| && Decode(lines[..i]) == Loaded(bytes, None)
    requires LiteralOf(lines[i]) != "" && IsBinary(LiteralOf(lines[i])) && |bytes| >= RamSize
    ensures Decode(lines) == Loaded(bytes, Some(RamIndexError(|bytes|)))
  {
    assert Feed(Loaded(bytes, None), lines[i]) == Loaded(bytes, Some(RamIndexError(|bytes|)));
    NextLine(lines, i, bytes);
    DecodeErrorSticks(lines, i + 1);
  }

  /** A value with an address left is stored at the next address. */
  lemma LoadValue(lines: seq<string>, i: nat, bytes: seq<int>)
    requires i < |lines| && Decode(lines[..i]) == Loaded(bytes, None)
    requires LiteralOf(lines[i]) != "" && IsBinary(LiteralOf(lines[i])) && |bytes| < RamSize
    ensures Decode(lines[..i + 1]) == Loaded(bytes + [BinaryValue(LiteralOf(lines[i]))], None)
  {
    NextLine(lines, i, bytes);
  }

  /** Once a line has raised, the lines after it are never read. */
  lemma {:induction false} DecodeErrorSticks(lines: seq<string>, i: nat)
    requires i <= |lines| && Decode(lines[..i]).error.Some?
    ensures Decode(lines) == Decode(lines[..i])
    decreases |lines| - i
  {
    if i < |lines| {
      assert lines[..i + 1][..i] == lines[..i];
      DecodeErrorSticks(lines, i + 1);
    } else {
      assert lines[..i] == lines;
    }
  }

  /** A fresh CPU after load(): memory starts with the decoded bytes and nothing
      else has changed. An exception from load() propagates, with memory as far
      as the loop had got. */
  function Boot(lines: seq<string>): (r: Result<State>)
    ensures Wf(After(r))
    ensures r.Err? <==> Decode(lines).error.Some?
    ensures r.Err? ==> r.error == Decode(lines).error.value
    ensures After(r).ram[..|Decode(lines).bytes|] == Decode(lines).bytes
    ensures forall i :: |Decode(lines).bytes| <= i < RamSize ==> After(r).ram[i] == 0
    ensures After(r).(ram := Init().ram) == Init()
  {
    var d := Decode(lines);
    var s := Init().(ram := d.bytes + Init().ram[|d.bytes|..]);
    if d.error.Some? then Err(s, d.error.value) else Ok(s)
  }

  // ---------------------------------------------------------------------------
  // A reference reading of the loader, and the properties relating the two

  /** The literal text of every non-blank line, in order. */
  function Literals(lines: seq<string>): seq<string>
    decreases |lines|
  {
    if lines == [] then []
    else
      var num := LiteralOf(lines[|lines| - 1]);
      Literals(lines[..|lines| - 1]) + (if num == "" then [] else [num])
  }

  lemma LiteralsSnoc(lines: seq<string>, line: string)
    ensures Literals(lines + [line]) == Literals(lines) + (if LiteralOf(line) == "" then [] else [LiteralOf(line)])
  {
    assert (lines + [line])[..|lines|] == lines;
  }

  predicate AllBinary(lits: seq<string>) {
    forall i :: 0 <= i < |lits| ==> IsBinary(lits[i])
  }

  /** The base-2 value of each literal, in order. */
  function Values(lits: seq<string>): (vs: seq<int>)
    requires AllBinary(lits)
    ensures |vs| == |lits|
    ensures forall i :: 0 <= i < |lits| ==> vs[i] == BinaryValue(lits[i])
    decreases |lits|
  {
    if lits == [] then [] else Values(lits[..|lits| - 1]) + [BinaryValue(lits[|lits| - 1])]
  }

  lemma ParseBinaryLine(line: string)
    requires LiteralOf(line) != "" && IsBinary(LiteralOf(line))
    ensures ParseLine(line) == Value(BinaryValue(LiteralOf(line)))
  {
  }

  lemma ValuesSnoc(lits: seq<string>, num: string)
    requires AllBinary(lits) && IsBinary(num)
    ensures AllBinary(lits + [num])
    ensures Values(lits + [num]) == Values(lits) + [BinaryValue(num)]
  {
    var all := lits + [num];
    forall i | 0 <= i < |all| ensures IsBinary(all[i]) {
      if i < |lits| { assert all[i] == lits[i]; }
    }
    assert all[..|all| - 1] == lits;
  }

  /** When every literal is binary and there are at most 256 of them, memory
      receives exactly their base-2 values, the i-th literal at address i. */
  lemma {:induction false} DecodeReadsLiterals(lines: seq<string>)
    requires AllBinary(Literals(lines))
    requires |Literals(lines)| <= RamSize
    ensures Decode(lines) == Loaded(Values(Literals(lines)), None)
    decreases |lines|
  {
    if lines != [] {
      var init := lines[..|lines| - 1];
      LiteralsPrefix(init, lines[|lines| - 1]);
      assert init + [lines[|lines| - 1]] == lines;
      DecodeReadsLiterals(init);
      DecodeReadsLast(init, lines[|lines| - 1]);
    }
  }

  /** Conversely, load() finishes without an exception exactly when every
      literal is binary and there are at most 256 of them. */
  lemma {:induction false} DecodeSucceeds(lines: seq<string>)
    ensures Decode(lines).error == None <==> AllBinary(Literals(lines)) && |Literals(lines)| <= RamSize
    decreases |lines|
  {
    if AllBinary(Literals(lines)) && |Literals(lines)| <= RamSize {
      DecodeReadsLiterals(lines);
    } else if lines != [] {
      var init, last := lines[..|lines| - 1], lines[|lines| - 1];
      assert init + [last] == lines;
      DecodeSnoc(init, last);
      LiteralsSnoc(init, last);
      DecodeSucceeds(init);
      if Decode(init).error == None {
        DecodeReadsLiterals(init);
        var num := LiteralOf(last);
        if num != "" && IsBinary(num) {
          ValuesSnoc(Literals(init), num);
        }
      }
    }
  }

  lemma LiteralsPrefix(init: seq<string>, last: string)
    requires AllBinary(Literals(init + [last]))
    ensures AllBinary(Literals(init)) && |Literals(init)| <= |Literals(init + [last])|
  {
    LiteralsSnoc(init, last);
    var lits := Literals(init);
    assert lits == Literals(init + [last])[..|lits|];
  }

  lemma DecodeReadsLast(init: seq<string>, last: string)
    requires AllBinary(Literals(init + [last])) && AllBinary(Literals(init))
    requires |Literals(init + [last])| <= RamSize
    requires Decode(init) == Loaded(Values(Literals(init)), None)
    ensures Decode(init + [last]) == Loaded(Values(Literals(init + [last])), None)
  {
    var lits, num := Literals(init), LiteralOf(last);
    LiteralsSnoc(init, last);
    DecodeSnoc(init, last);
    if num != "" {
      assert IsBinary(num) by {
        assert num == Literals(init + [last])[|lits|];
      }
      assert ParseLine(last) == Value(BinaryValue(num)) by {
        ParseBinaryLine(last);
      }
      assert Values(lits + [num]) == Values(lits) + [BinaryValue(num)] by {
        ValuesSnoc(lits, num);
      }
      FeedValue(Loaded(Values(lits), None), last, BinaryValue(num));
    }
  }

  /** A line that is blank after cutting the comment and stripping takes no
      address: inserting it anywhere changes nothing. */
  lemma {:induction false} BlankLineIgnored(xs: seq<string>, blank: string, ys: seq<string>)
    requires ParseLine(blank) == Blank
    ensures Decode(xs + [blank] + ys) == Decode(xs + ys)
    decreases |ys|
  {
    if ys == [] {
      assert xs + [blank] + ys == xs + [blank];
      assert xs + ys == xs;
      DecodeSnoc(xs, blank);
    } else {
      var ys', y := ys[..|ys| - 1], ys[|ys| - 1];
      BlankLineIgnored(xs, blank, ys');
      SameDecodeSnoc(xs + [blank] + ys', xs + ys', y);
      assert xs + [blank] + ys == (xs + [blank] + ys') + [y];
      assert xs + ys == (xs + ys') + [y];
    }
  }

  lemma SameDecodeSnoc(a: seq<string>, b: seq<string>, line: string)
    requires Decode(a) == Decode(b)
    ensures Decode(a + [line]) == Decode(b + [line])
  {
    DecodeSnoc(a, line);
    DecodeSnoc(b, line);
  }

  /** A line without '#' is not cut at all. */
  lemma {:induction false} NoComment(lit: string)
    requires '#' !in lit
    ensures BeforeComment(lit) == lit
    decreases |lit|
  {
    if lit != [] {
      assert lit[0] in lit;
      NoComment(lit[1..]);
      assert [lit[0]] + lit[1..] == lit;
    }
  }

  lemma {:induction false} BeforeCommentStops(lit: string, comment: string)
    requires '#' !in lit
    ensures BeforeComment(lit + "#" + comment) == lit
    decreases |lit|
  {
    if lit != [] {
      assert lit[0] in lit;
      assert (lit + "#" + comment)[1..] == lit[1..] + "#" + comment;
      BeforeCommentStops(lit[1..], comment);
      assert [lit[0]] + lit[1..] == lit;
    }
  }

  /** A trailing comment does not change what a line contributes. */
  lemma CommentIgnored(lit: string, comment: string)
    requires '#' !in lit
    ensures ParseLine(lit + "#" + comment) == ParseLine(lit)
  {
    BeforeCommentStops(lit, comment);
    NoComment(lit);
  }

  // ---------------------------------------------------------------------------
  // Writing a program: 8-digit binary literals, the format of the program files

  function Digit(b: nat): char
    requires b < 2
  {
    if b == 1 then '1' else '0'
  }

  /** The lowest w bits of n, most significant first. */
  function Bits(n: nat, w: nat): (t: string)
    ensures |t| == w && IsBinary(t)
  {
    if w == 0 then [] else Bits(n / 2, w - 1) + [Digit(n % 2)]
  }

  lemma {:induction false} BitsValue(n: nat, w: nat)
    requires n < Pow2(w)
    ensures BinaryValue(Bits(n, w)) == n
  {
    if w > 0 {
      var t := Bits(n, w);
      assert t[..|t| - 1] == Bits(n / 2, w - 1);
      assert t[|t| - 1] == Digit(n % 2);
      assert n / 2 < Pow2(w - 1);
      BitsValue(n / 2, w - 1);
      assert n == 2 * (n / 2) + n % 2;
    }
  }

  /** Each byte as a line of its 8-bit binary literal. */
  function Encode(bytes: seq<int>): (lines: seq<string>)
    requires forall i :: 0 <= i < |bytes| ==> 0 <= bytes[i]
    ensures |lines| == |bytes|
    decreases |bytes|
  {
    if bytes == [] then []
    else Encode(bytes[..|bytes| - 1]) + [Bits(bytes[|bytes| - 1], 8) + "\n"]
  }

  lemma NoHashInBinary(t: string)
    requires IsBinary(t)
    ensures '#' !in t + "\n"
  {
    forall i | 0 <= i < |t + "\n"| ensures (t + "\n")[i] != '#' {
      if i < |t| { assert t[i] == '0' || t[i] == '1'; }
    }
  }

  lemma StripLiteralLine(t: string)
    requires t != [] && IsBinary(t)
    ensures Strip(t + "\n") == t
  {
    assert t[0] == '0' || t[0] == '1';
    assert !IsSpace('0') && !IsSpace('1') && IsSpace('\n');
    assert (t + "\n")[0] == t[0];
    assert TrimLeft(t + "\n") == t + "\n";
    assert (t + "\n")[..|t|] == t;
    assert t[|t| - 1] == '0' || t[|t| - 1] == '1';
    assert TrimRight(t) == t;
  }

  lemma ParseEncodedLine(b: nat)
    requires b < 256
    ensures ParseLine(Bits(b, 8) + "\n") == Value(b)
  {
    var t := Bits(b, 8);
    assert Pow2(8) == 256;
    BitsValue(b, 8);
    NoHashInBinary(t);
    NoComment(t + "\n");
    StripLiteralLine(t);
  }

  /** Loading the encoding of at most 256 bytes puts exactly those bytes in memory. */
  lemma {:induction false} DecodeEncode(bytes: seq<int>)
    requires forall i :: 0 <= i < |bytes| ==> 0 <= bytes[i] < 256
    requires |bytes| <= RamSize
    ensures Decode(Encode(bytes)) == Loaded(bytes, None)
    decreases |bytes|
  {
    if bytes != [] {
      var init, last := bytes[..|bytes| - 1], bytes[|bytes| - 1];
      assert init + [last] == bytes;
      assert Encode(bytes) == Encode(init) + [Bits(last, 8) + "\n"];
      DecodeEncode(init);
      DecodeEncodedLast(Encode(init), init, last);
    }
  }

  lemma DecodeEncodedLast(lines: seq<string>, init: seq<int>, last: nat)
    requires Decode(lines) == Loaded(init, None) && |init| < RamSize && last < 256
    ensures Decode(lines + [Bits(last, 8) + "\n"]) == Loaded(init + [last], None)
  {
    var line := Bits(last, 8) + "\n";
    DecodeSnoc(lines, line);
    ParseEncodedLine(last);
    FeedValue(Loaded(init, None), line, last);
  }
}
