/**
 * The line rule of `load`: each line loses everything from its first `#`;
 * a line that is then blank is skipped; any other line is read as a base-2
 * integer literal and stored at the next address, starting from 0.
 *
 * `int(text, 2)` is modelled with Python's syntax for it: surrounding
 * whitespace, an optional sign, an optional `0b`/`0B` prefix (optionally
 * followed by one underscore), then binary digits with single underscores
 * allowed between them.
 */
module Loader {
  import opened Wrappers
  import opened Semantics

  // ----- characters and the string built-ins `load` uses -----

  /** Python's `str.isspace`, the whitespace `strip()` removes. */
  predicate IsSpace(c: char)
  {
    var k := c as int;
    9 <= k <= 13 || 28 <= k <= 32 || k == 133 || k == 160 || k == 5760
    || 8192 <= k <= 8202 || k == 8232 || k == 8233 || k == 8239 || k == 8287 || k == 12288
  }

  /**
   * The ASCII separators U+001C..U+001F: `str.isspace` holds of them, but
   * `int()` does not skip them (it skips only ` \t\n\v\f\r` and non-ASCII
   * whitespace), and they are not part of any literal.
   */
  predicate IsSeparator(c: char)
  {
    28 <= c as int <= 31
  }

  predicate HasSeparator(s: string)
  {
    exists i :: 0 <= i < |s| && IsSeparator(s[i])
  }

  predicate IsBit(c: char)
  {
    c == '0' || c == '1'
  }

  /** `line.split('#', 1)[0]`: the text before the first `#`, or the whole line. */
  function CodePart(line: string): (code: string)
    ensures code <= line && '#' !in code
    ensures code == line || line[|code|] == '#'
  {
    if |line| == 0 || line[0] == '#' then []
    else [line[0]] + CodePart(line[1..])
  }

  /** `s.lstrip()`. */
  function TrimLeft(s: string): string
  {
    if |s| > 0 && IsSpace(s[0]) then TrimLeft(s[1..]) else s
  }

  /** `s.rstrip()`. */
  function TrimRight(s: string): string
  {
    if |s| > 0 && IsSpace(s[|s| - 1]) then TrimRight(s[..|s| - 1]) else s
  }

  /** `lstrip` removes exactly the leading whitespace: what is left is a suffix that does not start with a space. */
  lemma {:induction false} TrimLeftSpaces(s: string)
    ensures var t := TrimLeft(s);
      |t| <= |s| && t == s[|s| - |t|..]
      && (forall i :: 0 <= i < |s| - |t| ==> IsSpace(s[i])) && (|t| == 0 || !IsSpace(t[0]))
    decreases |s|
  {
    if |s| > 0 && IsSpace(s[0]) {
      TrimLeftSpaces(s[1..]);
      var t := TrimLeft(s);
      forall i | 0 <= i < |s| - |t|
        ensures IsSpace(s[i])
      {
        if i > 0 {
          assert s[i] == s[1..][i - 1];
        }
      }
    }
  }

  /** `rstrip` removes exactly the trailing whitespace: what is left is a prefix that does not end with a space. */
  lemma {:induction false} TrimRightSpaces(s: string)
    ensures var t := TrimRight(s);
      t <= s
      && (forall i :: |t| <= i < |s| ==> IsSpace(s[i])) && (|t| == 0 || !IsSpace(t[|t| - 1]))
    decreases |s|
  {
    if |s| > 0 && IsSpace(s[|s| - 1]) {
      TrimRightSpaces(s[..|s| - 1]);
    }
  }

  /** `s.strip()`. */
  function Strip(s: string): string
  {
    TrimRight(TrimLeft(s))
  }

  // ----- int(text, 2) -----

  /** Digits with single underscores between them: `1`, `1_0`, but not `_1`, `1_` or `1__0`. */
  predicate DigitRun(ds: string)
  {
    |ds| > 0 && IsBit(ds[0]) && MoreDigits(ds[1..])
  }

  /** What may follow a digit in a run: more digits, each one optionally preceded by one underscore. */
  predicate MoreDigits(ds: string)
    decreases |ds|
  {
    |ds| == 0
    || (IsBit(ds[0]) && MoreDigits(ds[1..]))
    || (ds[0] == '_' && |ds| >= 2 && IsBit(ds[1]) && MoreDigits(ds[2..]))
  }

  /** The number the bits of `ds` spell, most significant first; underscores are skipped. */
  function DigitsValue(ds: string): nat
  {
    if |ds| == 0 then 0
    else if ds[|ds| - 1] == '_' then DigitsValue(ds[..|ds| - 1])
    else 2 * DigitsValue(ds[..|ds| - 1]) + (if ds[|ds| - 1] == '1' then 1 else 0)
  }

  /** What follows an optional `0b`/`0B` prefix and the one underscore allowed after it. */
  function AfterPrefix(body: string): string
  {
    if |body| >= 2 && body[0] == '0' && (body[1] == 'b' || body[1] == 'B') then
      var rest := body[2..];
      if |rest| > 0 && rest[0] == '_' then rest[1..] else rest
    else body
  }

  /** The unsigned part of a literal: an optional prefix, then a digit run. */
  function ParseUnsigned(body: string): Option<nat>
  {
    var ds := AfterPrefix(body);
    if DigitRun(ds) then Some(DigitsValue(ds)) else None
  }

  /**
   * `int(text, 2)`: `None` where Python raises ValueError.  Stripping with
   * `strip()`'s whitespace is exact once separators are ruled out: a
   * separator is skipped by neither side of `int()`, so wherever it stands
   * the text is rejected.
   */
  function ParseBase2(text: string): Option<int>
  {
    if HasSeparator(text) then None else ParseSigned(Strip(text))
  }

  /** A stripped literal: an optional sign, then the unsigned part. */
  function ParseSigned(s: string): Option<int>
  {
    if |s| > 0 && s[0] == '-' then
      match ParseUnsigned(s[1..])
      case Some(v) => Some(-(v as int))
      case None => None
    else if |s| > 0 && s[0] == '+' then
      match ParseUnsigned(s[1..])
      case Some(v) => Some(v as int)
      case None => None
    else
      match ParseUnsigned(s)
      case Some(v) => Some(v as int)
      case None => None
  }

  // ----- writing numbers in base 2 -----

  /** `n` in base 2, padded with leading zeros to at least `width` digits (and at least one). */
  function Binary(n: nat, width: nat): string
    decreases n + width
  {
    var digit := if n % 2 == 1 then '1' else '0';
    if n < 2 && width <= 1 then [digit]
    else Binary(n / 2, if width > 0 then width - 1 else 0) + [digit]
  }

  lemma {:induction false} BinaryDigits(n: nat, width: nat)
    ensures var b := Binary(n, width);
      |b| >= width && |b| >= 1 && (forall i :: 0 <= i < |b| ==> IsBit(b[i])) && DigitsValue(b) == n
    decreases n + width
  {
    var b := Binary(n, width);
    if !(n < 2 && width <= 1) {
      var w' := if width > 0 then width - 1 else 0;
      BinaryDigits(n / 2, w');
      assert b[..|b| - 1] == Binary(n / 2, w');
    }
  }

  /** A string of bits is a digit run, with no prefix to skip. */
  lemma {:induction false} BitsAreDigitRun(s: string)
    requires |s| > 0 && forall i :: 0 <= i < |s| ==> IsBit(s[i])
    ensures DigitRun(s) && AfterPrefix(s) == s
  {
    BitsAreMoreDigits(s[1..]);
  }

  lemma {:induction false} BitsAreMoreDigits(s: string)
    requires forall i :: 0 <= i < |s| ==> IsBit(s[i])
    ensures MoreDigits(s)
    decreases |s|
  {
    if |s| > 0 {
      BitsAreMoreDigits(s[1..]);
    }
  }

  /** What may follow a digit holds nothing but digits and underscores. */
  lemma {:induction false} MoreDigitsPlain(ds: string)
    requires MoreDigits(ds)
    ensures forall i :: 0 <= i < |ds| ==> IsBit(ds[i]) || ds[i] == '_'
    decreases |ds|
  {
    if |ds| > 0 {
      if IsBit(ds[0]) && MoreDigits(ds[1..]) {
        MoreDigitsPlain(ds[1..]);
        assert forall i :: 1 <= i < |ds| ==> ds[i] == ds[1..][i - 1];
      } else {
        MoreDigitsPlain(ds[2..]);
        assert forall i :: 2 <= i < |ds| ==> ds[i] == ds[2..][i - 2];
      }
    }
  }

  /** Plain digits need no stripping. */
  lemma StripDigits(s: string)
    requires |s| > 0 && !IsSpace(s[0]) && !IsSpace(s[|s| - 1])
    ensures Strip(s) == s
  {
    assert TrimLeft(s) == s;
  }

  /** A digit run without prefix that `strip()` leaves alone reads as its value. */
  lemma ParseDigitRun(ds: string)
    requires DigitRun(ds) && AfterPrefix(ds) == ds && Strip(ds) == ds
    ensures ParseBase2(ds) == Some(DigitsValue(ds) as int)
  {
    MoreDigitsPlain(ds[1..]);
    assert !HasSeparator(ds) by {
      forall i | 0 <= i < |ds|
        ensures !IsSeparator(ds[i])
      {
        if i > 0 {
          assert ds[i] == ds[1..][i - 1];
        }
      }
    }
    var s := Strip(ds);
    assert s == ds && IsBit(s[0]);
    assert !(s[0] == '-' || s[0] == '+');
    assert ParseUnsigned(s) == Some(DigitsValue(ds));
  }

  /** A minus sign and a digit run without prefix, which `strip()` leaves alone, read as the run's negated value. */
  lemma ParseMinusDigitRun(s: string, ds: string)
    requires DigitRun(ds) && AfterPrefix(ds) == ds
    requires |s| > 0 && s[0] == '-' && s[1..] == ds && Strip(s) == s
    ensures ParseBase2(s) == Some(-(DigitsValue(ds) as int))
  {
    MoreDigitsPlain(ds[1..]);
    assert !HasSeparator(s) by {
      forall i | 0 <= i < |s|
        ensures !IsSeparator(s[i])
      {
        if i > 1 {
          assert s[i] == ds[1..][i - 2];
        } else if i == 1 {
          assert s[i] == ds[0];
        }
      }
    }
    assert ParseUnsigned(Strip(s)[1..]) == Some(DigitsValue(ds));
  }

  /** Reading back a number written in base 2 gives the number, whatever the padding. */
  lemma ParseBinary(n: nat, width: nat)
    ensures ParseBase2(Binary(n, width)) == Some(n)
  {
    var b := Binary(n, width);
    BinaryDigits(n, width);
    assert IsBit(b[0]) && IsBit(b[|b| - 1]);
    StripDigits(b);
    BitsAreDigitRun(b);
    ParseDigitRun(b);
  }

  /** A minus sign in front of a number written in base 2 reads back as its negation. */
  lemma ParseNegativeBinary(s: string, n: nat, width: nat)
    requires |s| > 0 && s[0] == '-' && s[1..] == Binary(n, width)
    ensures ParseBase2(s) == Some(-(n as int))
  {
    var b := Binary(n, width);
    BinaryDigits(n, width);
    assert s[|s| - 1] == b[|b| - 1];
    StripDigits(s);
    BitsAreDigitRun(b);
    ParseMinusDigitRun(s, b);
  }

  /** Text with nothing but whitespace is what `strip()` empties. */
  lemma StripEmptyIffBlank(s: string)
    ensures Strip(s) == [] <==> forall i :: 0 <= i < |s| ==> IsSpace(s[i])
  {
    var t := TrimLeft(s);
    TrimLeftSpaces(s);
    TrimRightSpaces(t);
    if |t| > 0 {
      assert t[0] == s[|s| - |t|];
    }
  }

  // ----- the load loop as a value -----

  /** What one line of a program file is to `load`: nothing, or a literal and what `int(literal, 2)` gives. */
  datatype Line = Blank | Literal(text: string, value: Option<int>)

  /** `num = line.split('#', 1)[0]`, the `num.strip() == ''` test and `int(num, 2)`. */
  function ReadLine(line: string): Line
  {
    var num := CodePart(line);
    if Strip(num) == [] then Blank else Literal(num, ParseBase2(num))
  }

  function ReadLines(text: seq<string>): (lines: seq<Line>)
    ensures |lines| == |text|
  {
    seq(|text|, i requires 0 <= i < |text| => ReadLine(text[i]))
  }

  /** Where `load` stops: the memory it leaves, the next free address, and what went wrong if anything. */
  datatype LoadResult = LoadResult(ram: seq<int>, next: nat, fault: Option<Fault>)

  /**
   * The loop of `load` from the given line on, storing at `address`: blank
   * lines are skipped; `int(...)` is evaluated before the store, so a bad
   * literal is reported even when memory is full.
   */
  function LoadFrom(ram: seq<int>, lines: seq<Line>, address: nat): (r: LoadResult)
    ensures |r.ram| == |ram|
    decreases |lines|
  {
    if |lines| == 0 then LoadResult(ram, address, None)
    else match lines[0]
      case Blank => LoadFrom(ram, lines[1..], address)
      case Literal(text, None) => LoadResult(ram, address, Some(BadLiteral(text)))
      case Literal(_, Some(v)) =>
        if address < |ram| then LoadFrom(ram[address := v], lines[1..], address + 1)
        else LoadResult(ram, address, Some(BadAddress(address)))
  }

  // ----- what `load` stores, stated without the loop -----

  /** The values of the literals, in order, if every one of them parses. */
  function Values(lines: seq<Line>): (r: Option<seq<int>>)
  {
    if |lines| == 0 then Some([])
    else match lines[0]
      case Blank => Values(lines[1..])
      case Literal(_, None) => None
      case Literal(_, Some(v)) =>
        match Values(lines[1..])
        case None => None
        case Some(vs) => Some([v] + vs)
  }

  /**
   * Load from `address` succeeds exactly when every literal parses and they
   * fit from `address` to the end of memory; then the literals' values
   * occupy consecutive cells from `address`, every other cell keeps its
   * value, and the next free address is `address` plus their number.
   */
  lemma {:induction false} LoadStoresLiterals(ram: seq<int>, lines: seq<Line>, address: nat)
    requires address <= |ram|
    ensures var r := LoadFrom(ram, lines, address);
      var vals := Values(lines);
      r.fault.None? <==> vals.Some? && address + |vals.value| <= |ram|
    ensures var r := LoadFrom(ram, lines, address);
      var vals := Values(lines);
      r.fault.None? ==>
        r.next == address + |vals.value|
        && r.ram == ram[..address] + vals.value + ram[address + |vals.value|..]
    decreases |lines|
  {
    if |lines| > 0 {
      match lines[0]
      case Blank =>
        LoadStoresLiterals(ram, lines[1..], address);
      case Literal(_, None) =>
      case Literal(_, Some(v)) =>
        if address < |ram| {
          var ram' := ram[address := v];
          assert LoadFrom(ram, lines, address) == LoadFrom(ram', lines[1..], address + 1);
          LoadStoresLiterals(ram', lines[1..], address + 1);
          var vals := Values(lines[1..]);
          if vals.Some? {
            assert Values(lines) == Some([v] + vals.value);
            if address + 1 + |vals.value| <= |ram| {
              StoreThenRest(ram, address, v, vals.value);
            }
          }
        }
    }
  }

  /** Storing `v` at `address` and then `vs` after it is storing `[v] + vs` at `address`. */
  lemma StoreThenRest(ram: seq<int>, address: nat, v: int, vs: seq<int>)
    requires address + 1 + |vs| <= |ram|
    ensures var ram' := ram[address := v];
      ram'[..address + 1] + vs + ram'[address + 1 + |vs|..] == ram[..address] + ([v] + vs) + ram[address + 1 + |vs|..]
  {
    var ram' := ram[address := v];
    assert ram'[..address + 1] == ram[..address] + [v];
    assert ram'[address + 1 + |vs|..] == ram[address + 1 + |vs|..];
  }

  /** Load stores nothing below `address` or from the next free address on. */
  lemma {:induction false} LoadKeepsOtherCells(ram: seq<int>, lines: seq<Line>, address: nat)
    ensures var r := LoadFrom(ram, lines, address);
      r.next >= address && forall k :: 0 <= k < |ram| && (k < address || r.next <= k) ==> r.ram[k] == ram[k]
    decreases |lines|
  {
    if |lines| > 0 {
      match lines[0]
      case Blank =>
        LoadKeepsOtherCells(ram, lines[1..], address);
      case Literal(_, None) =>
      case Literal(_, Some(v)) =>
        if address < |ram| {
          LoadKeepsOtherCells(ram[address := v], lines[1..], address + 1);
        }
    }
  }

  /** Lines that are all literals with values give those values. */
  lemma {:induction false} ValuesOfLiterals(lines: seq<Line>, vals: seq<int>)
    requires |lines| == |vals|
    requires forall i :: 0 <= i < |lines| ==> lines[i].Literal? && lines[i].value == Some(vals[i])
    ensures Values(lines) == Some(vals)
    decreases |lines|
  {
    if |lines| > 0 {
      ValuesOfLiterals(lines[1..], vals[1..]);
      assert [vals[0]] + vals[1..] == vals;
    }
  }

  /** A program written one number per line, in base 2 with at least `width` digits. */
  function BinaryText(program: seq<nat>, width: nat): (text: seq<string>)
    ensures |text| == |program|
  {
    seq(|program|, i requires 0 <= i < |program| => Binary(program[i], width))
  }

  /** Every line of a program written in base 2 is a literal, and their values are the program. */
  lemma BinaryTextValues(program: seq<nat>, width: nat)
    ensures Values(ReadLines(BinaryText(program, width))) == Some(program)
  {
    var lines := ReadLines(BinaryText(program, width));
    forall i | 0 <= i < |lines|
      ensures lines[i].Literal? && lines[i].value == Some(program[i] as int)
    {
      BinaryLine(program[i], width);
    }
    ValuesOfLiterals(lines, program);
  }

  /** A program written in base 2, one number per line, loads as those numbers from address 0. */
  lemma LoadBinaryProgram(ram: seq<int>, program: seq<nat>, width: nat)
    requires |program| <= |ram|
    ensures var r := LoadFrom(ram, ReadLines(BinaryText(program, width)), 0);
      r.fault.None? && r.next == |program| && r.ram == program + ram[|program|..]
  {
    BinaryTextValues(program, width);
    LoadAll(ram, ReadLines(BinaryText(program, width)), program);
  }

  /** Lines whose literals all parse and fit in memory load in full from address 0. */
  lemma LoadAll(ram: seq<int>, lines: seq<Line>, vals: seq<int>)
    requires Values(lines) == Some(vals) && |vals| <= |ram|
    ensures LoadFrom(ram, lines, 0) == LoadResult(vals + ram[|vals|..], |vals|, None)
  {
    LoadStoresLiterals(ram, lines, 0);
    assert ram[..0] + vals == vals;
  }

  /** A number written in base 2 is a line that holds that number. */
  lemma BinaryLine(n: nat, width: nat)
    ensures ReadLine(Binary(n, width)) == Literal(Binary(n, width), Some(n))
  {
    var b := Binary(n, width);
    BinaryDigits(n, width);
    var code := CodePart(b);
    assert |code| < |b| ==> IsBit(b[|code|]);
    assert code == b;
    assert IsBit(b[0]) && IsBit(b[|b| - 1]);
    StripDigits(b);
    ParseBinary(n, width);
    ReadLiteral(b, b, Some(n));
  }

  /** `split('#', 1)[0]` passes over text without `#`. */
  lemma {:induction false} CodePartAppend(p: string, rest: string)
    requires '#' !in p
    ensures CodePart(p + rest) == p + CodePart(rest)
    decreases |p|
  {
    if |p| == 0 {
      assert p + rest == rest;
    } else {
      assert (p + rest)[1..] == p[1..] + rest;
      CodePartAppend(p[1..], rest);
    }
  }

  /** Space after a token with no whitespace at either end is stripped away. */
  lemma StripTrailingSpace(b: string)
    requires |b| > 0 && !IsSpace(b[0]) && !IsSpace(b[|b| - 1])
    ensures Strip(b + " ") == b
  {
    var s := b + " ";
    assert s[0] == b[0] && TrimLeft(s) == s;
    assert s[..|s| - 1] == b;
    assert TrimRight(s) == TrimRight(b);
  }

  /** Two texts without separators that strip to the same text read the same: `int()` only sees the stripped text. */
  lemma ParseSeesStripped(x: string, y: string)
    requires Strip(x) == Strip(y) && !HasSeparator(x) && !HasSeparator(y)
    ensures ParseBase2(x) == ParseBase2(y)
  {
  }

  /** A line whose code part is not blank is a literal holding what `int()` makes of it. */
  lemma ReadLiteral(line: string, code: string, v: Option<int>)
    requires CodePart(line) == code && Strip(code) != [] && ParseBase2(code) == v
    ensures ReadLine(line) == Literal(code, v)
  {
  }

  /** A line whose code part is blank is skipped. */
  lemma ReadBlank(line: string)
    requires Strip(CodePart(line)) == []
    ensures ReadLine(line) == Blank
  {
  }

  /** The code part of a number followed by a space and a comment is the number and the space. */
  lemma CodeBeforeComment(b: string, comment: string)
    requires forall i :: 0 <= i < |b| ==> IsBit(b[i])
    ensures CodePart(b + " #" + comment) == b + " "
  {
    var code := b + " ";
    assert '#' !in code by {
      assert forall i :: 0 <= i < |code| ==> code[i] != '#';
    }
    assert b + " #" + comment == code + ("#" + comment);
    CodePartAppend(code, "#" + comment);
    assert CodePart("#" + comment) == [];
  }

  /** A number written in base 2 and followed by a space reads back as the number. */
  lemma ParseSpacedBinary(n: nat, width: nat)
    ensures var b := Binary(n, width);
      Strip(b + " ") == b && ParseBase2(b + " ") == Some(n)
  {
    var b := Binary(n, width);
    BinaryDigits(n, width);
    assert IsBit(b[0]) && IsBit(b[|b| - 1]);
    StripTrailingSpace(b);
    StripDigits(b);
    assert forall i :: 0 <= i < |b + " "| ==> (b + " ")[i] == ' ' || IsBit((b + " ")[i]);
    assert forall i :: 0 <= i < |b| ==> IsBit(b[i]);
    ParseSeesStripped(b + " ", b);
    ParseBinary(n, width);
  }

  /**
   * A comment after a number, separated by a space, is dropped; the space
   * is kept in the literal but does not change its value.
   */
  lemma CommentAfterLiteral(n: nat, width: nat, comment: string)
    ensures var b := Binary(n, width);
      ReadLine(b + " #" + comment) == Literal(b + " ", Some(n))
  {
    var b := Binary(n, width);
    BinaryDigits(n, width);
    CodeBeforeComment(b, comment);
    ParseSpacedBinary(n, width);
    ReadLiteral(b + " #" + comment, b + " ", Some(n));
  }

  /** A line that starts with `#` is blank. */
  lemma CommentOnlyLine(comment: string)
    ensures ReadLine("#" + comment) == Blank
  {
    assert ("#" + comment)[0] == '#';
    assert CodePart("#" + comment) == [];
    assert Strip([]) == [];
    ReadBlank("#" + comment);
  }

  /**
   * A separator is whitespace to `strip()` but not to `int()`: the line
   * "\x1c1" is not blank, since it strips to "1", yet it is not a valid
   * literal, so `load` raises on it.
   */
  lemma SeparatorLineRejected()
    ensures Strip("\U{1c}1") == "1"
    ensures ReadLine("\U{1c}1") == Literal("\U{1c}1", None)
  {
    assert IsSeparator("\U{1c}1"[0]);
    assert CodePart("\U{1c}1") == "\U{1c}1";
  }
}
