/** The checksum of a STAPL file's text (stapl_crc16.py): carriage returns are dropped, the rest is
    encoded as ASCII and summed. */
module StaplFile {
  import opened Wrappers
  import opened Bits
  import opened Crc16

  /** The text without its carriage returns. */
  function Kept(text: string): string {
    if text == [] then [] else (if text[0] == '\r' then [] else [text[0]]) + Kept(text[1..])
  }

  predicate Ascii(text: string) {
    forall k :: 0 <= k < |text| ==> text[k] < 128 as char
  }

  function Encoded(text: string): (r: seq<Byte>)
    requires Ascii(text)
    ensures |r| == |text| && forall k :: 0 <= k < |text| ==> r[k] as char == text[k]
  {
    seq(|text|, k requires 0 <= k < |text| => text[k] as int)
  }

  /** stapl_file_crc. None where encoding raises. */
  method StaplFileCrc(text: string) returns (crc: Option<int>)
    ensures crc.Some? <==> Ascii(Kept(text))
    ensures crc.Some? ==> Packs(crc.value, Crc(Encoded(Kept(text))))
  {
    if !Ascii(Kept(text)) {
      return None;
    }
    var sum := Crc16X25(Encoded(Kept(text)));
    return Some(sum);
  }

  lemma {:induction false} KeptJoin(a: string, b: string)
    ensures Kept(a + b) == Kept(a) + Kept(b)
  {
    if a == [] {
      assert a + b == b;
    } else {
      assert (a + b)[0] == a[0] && (a + b)[1..] == a[1..] + b;
      KeptJoin(a[1..], b);
    }
  }

  /** The positions before `n` that do not hold a carriage return. */
  ghost function Plain(text: string, n: nat): set<nat>
    requires n <= |text|
  {
    set k: nat | k < n && text[k] != '\r'
  }

  /** The text is kept but for its carriage returns, in its order: every other character is where the count of
      those before it says. */
  lemma {:induction false} KeptAre(text: string)
    ensures |Kept(text)| == |Plain(text, |text|)|
    ensures forall k: nat :: k < |text| && text[k] != '\r' ==>
              |Plain(text, k)| < |Kept(text)| && Kept(text)[|Plain(text, k)|] == text[k]
  {
    if text != [] {
      var n := |text| - 1;
      var front, last := text[..n], text[n..];
      assert front + last == text;
      KeptJoin(front, last);
      KeptAre(front);
      forall k: nat | k <= n ensures Plain(front, k) == Plain(text, k) {
      }
      assert Plain(text, n + 1) == Plain(text, n) + (if text[n] != '\r' then {n} else {});
      assert last == [text[n]] && last[1..] == [];
    }
  }

  /** A file keeps its checksum whichever way its lines end. */
  lemma LineEndingsIgnored(lines: seq<string>)
    ensures Kept(Joined(lines, "\r\n")) == Kept(Joined(lines, "\n"))
  {
    if lines != [] {
      LineEndingsIgnored(lines[1..]);
      Line(lines[0], "\r\n", Joined(lines[1..], "\r\n"));
      Line(lines[0], "\n", Joined(lines[1..], "\n"));
      assert Kept("\n") == "\n" + Kept("");
      assert "\r\n"[1..] == "\n" && Kept("\r\n") == Kept("\n");
    }
  }

  /** The lines of a file, each followed by `ending`. */
  function Joined(lines: seq<string>, ending: string): string {
    if lines == [] then "" else lines[0] + ending + Joined(lines[1..], ending)
  }

  lemma Line(line: string, ending: string, rest: string)
    ensures Kept(line + ending + rest) == Kept(line) + Kept(ending) + Kept(rest)
  {
    KeptJoin(line + ending, rest);
    KeptJoin(line, ending);
  }

  lemma {:induction false} BitsJoin(a: seq<Byte>, b: seq<Byte>)
    ensures MessageBits(a + b) == MessageBits(a) + MessageBits(b)
    decreases |a|
  {
    if a == [] {
      assert a + b == b;
    } else {
      assert (a + b)[0] == a[0] && (a + b)[1..] == a[1..] + b;
      BitsJoin(a[1..], b);
    }
  }

  lemma {:induction false} SameBytes(a: seq<Byte>, b: seq<Byte>)
    requires |a| == |b| && MessageBits(a) == MessageBits(b)
    ensures a == b
    decreases |a|
  {
    if a != [] {
      var x, y := FromInt(a[0], 8), FromInt(b[0], 8);
      assert MessageBits(a)[..8] == x && MessageBits(b)[..8] == y;
      assert MessageBits(a)[8..] == MessageBits(a[1..]) && MessageBits(b)[8..] == MessageBits(b[1..]);
      SameBytes(a[1..], b[1..]);
      ToIntFromInt(a[0], 8);
      ToIntFromInt(b[0], 8);
    }
  }

  /** Two adjacent bytes replaced by two others never go unnoticed. */
  lemma AdjacentBytes(before: seq<Byte>, x: seq<Byte>, y: seq<Byte>, after: seq<Byte>)
    requires |x| == |y| <= 2 && x != y
    ensures Crc(before + x + after) != Crc(before + y + after)
  {
    var a, b := before + x + after, before + y + after;
    BitsJoin(before + x, after);
    BitsJoin(before, x);
    BitsJoin(before + y, after);
    BitsJoin(before, y);
    var p, s := MessageBits(before), MessageBits(after);
    var u, v := MessageBits(x), MessageBits(y);
    if u == v {
      SameBytes(x, y);
    }
    OnlyMiddle(p, u, v, s);
    BurstIsDetected(a, b, |p|);
  }

  lemma OnlyMiddle(p: Bits, u: Bits, v: Bits, s: Bits)
    requires |u| == |v| <= 16 && u != v
    ensures p + u + s != p + v + s
    ensures forall k :: 0 <= k < |p + u + s| && (p + u + s)[k] != (p + v + s)[k] ==> |p| <= k < |p| + 16
  {
    var k :| 0 <= k < |u| && u[k] != v[k];
    assert (p + u + s)[|p| + k] == u[k] && (p + v + s)[|p| + k] == v[k];
  }

  /** Replacing up to two adjacent characters of an ASCII text changes its checksum, unless only carriage
      returns were involved. */
  lemma AdjacentCharacters(before: string, x: string, y: string, after: string)
    requires |Kept(x)| == |Kept(y)| <= 2 && Kept(x) != Kept(y)
    requires Ascii(Kept(before + x + after)) && Ascii(Kept(before + y + after))
    ensures Crc(Encoded(Kept(before + x + after))) != Crc(Encoded(Kept(before + y + after)))
  {
    Line(before, x, after);
    Line(before, y, after);
    var p, u, v, s := Kept(before), Kept(x), Kept(y), Kept(after);
    Parts3(p, u, s);
    Parts3(p, v, s);
    var k :| 0 <= k < |u| && u[k] != v[k];
    assert Encoded(u)[k] != Encoded(v)[k];
    AdjacentBytes(Encoded(p), Encoded(u), Encoded(v), Encoded(s));
  }

  lemma Parts2(a: string, b: string)
    requires Ascii(a + b)
    ensures Ascii(a) && Ascii(b) && Encoded(a + b) == Encoded(a) + Encoded(b)
  {
    var t := a + b;
    assert forall k :: 0 <= k < |a| ==> t[k] == a[k];
    assert forall k :: 0 <= k < |b| ==> t[|a| + k] == b[k];
  }

  lemma Parts3(p: string, u: string, s: string)
    requires Ascii(p + u + s)
    ensures Ascii(p) && Ascii(u) && Ascii(s)
    ensures Encoded(p + u + s) == Encoded(p) + Encoded(u) + Encoded(s)
  {
    hide Ascii, Encoded;
    Parts2(p + u, s);
    Parts2(p, u);
  }
}
