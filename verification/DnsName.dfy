/** Domain names on the wire (sections 2.3.4 and 4.1.4 of RFC 1035): the question-name
    encoder, and the decoder that follows compression pointers. */
module DnsName {
  import opened Types

  type Byte = x: int | 0 <= x < 256
  type Text = seq<Byte>

  const DOT: Byte := 46
  const MAX_LABEL := 63
  const MAX_NAME := 253
  const MAX_STEPS := 128

  // ------------------------------------------------------------------- text

  function TrimDots(s: Text): Text {
    if s != [] && s[|s| - 1] == DOT then TrimDots(s[..|s| - 1]) else s
  }

  function FirstDot(s: Text): (i: nat)
    requires DOT in s
    ensures i < |s| && s[i] == DOT && DOT !in s[..i]
  {
    if s[0] == DOT then 0
    else
      var i := 1 + FirstDot(s[1..]);
      assert s[..i] == [s[0]] + s[1..][..i - 1];
      i
  }

  function Split(s: Text): (labels: seq<Text>)
    ensures labels != []
  {
    if DOT in s then [s[..FirstDot(s)]] + Split(s[FirstDot(s) + 1..]) else [s]
  }

  function Join(labels: seq<Text>): Text {
    if labels == [] then [] else if |labels| == 1 then labels[0] else labels[0] + [DOT] + Join(labels[1..])
  }

  lemma {:induction false} JoinSplit(s: Text)
    ensures Join(Split(s)) == s
  {
    if DOT in s {
      var i := FirstDot(s);
      JoinSplit(s[i + 1..]);
      assert Split(s)[1..] == Split(s[i + 1..]);
      assert s == s[..i] + [s[i]] + s[i + 1..];
    }
  }

  predicate Label(l: Text) { 1 <= |l| <= MAX_LABEL && forall i :: 0 <= i < |l| ==> l[i] < 128 }

  predicate Labels(labels: seq<Text>) { forall i :: 0 <= i < |labels| ==> Label(labels[i]) }

  predicate Encodable(name: Text) { Labels(Split(TrimDots(name))) && |TrimDots(name)| <= MAX_NAME }

  /** Length-prefixed labels, and then the root. */
  function Body(labels: seq<Text>): Text
    requires Labels(labels)
  {
    if labels == [] then [] else [|labels[0]| as Byte] + labels[0] + Body(labels[1..])
  }

  function Wire(labels: seq<Text>): Text
    requires Labels(labels)
  {
    Body(labels) + [0]
  }

  lemma {:induction false} WireLength(labels: seq<Text>)
    requires Labels(labels) && labels != []
    ensures |Wire(labels)| == |Join(labels)| + 2 && 2 * |labels| <= |Join(labels)| + 1
  {
    if |labels| == 1 {
      assert Body(labels[1..]) == [];
    } else {
      WireLength(labels[1..]);
    }
  }

  /** The question-name encoder. */
  method Encode(name: Text) returns (r: Option<Text>)
    ensures r.Some? <==> Encodable(name)
    ensures r.Some? ==> r.value == Wire(Split(TrimDots(name))) && |r.value| <= MAX_NAME + 2
  {
    var labels := Split(TrimDots(name));
    var packet: Text := [];
    for i := 0 to |labels|
      invariant Labels(labels[..i]) && packet == Body(labels[..i])
    {
      var piece := labels[i];
      if |piece| == 0 || |piece| > MAX_LABEL || exists j :: 0 <= j < |piece| && piece[j] >= 128 {
        return None;
      }
      BodyAppend(labels[..i], piece);
      assert labels[..i + 1] == labels[..i] + [piece];
      packet := packet + [|piece| as Byte] + piece;
    }
    assert labels[..|labels|] == labels;
    WireLength(labels);
    JoinSplit(TrimDots(name));
    if 12 + |packet| > 266 {
      return None;
    }
    return Some(packet + [0]);
  }

  lemma {:induction false} BodyAppend(labels: seq<Text>, l: Text)
    requires Labels(labels) && Label(l)
    ensures Labels(labels + [l]) && Body(labels + [l]) == Body(labels) + [|l| as Byte] + l
  {
    if labels == [] {
      assert (labels + [l])[1..] == [];
    } else {
      BodyAppend(labels[1..], l);
      assert (labels + [l])[1..] == labels[1..] + [l];
      var first: Text := [|labels[0]| as Byte] + labels[0];
      calc {
        Body(labels + [l]);
        first + Body(labels[1..] + [l]);
        first + (Body(labels[1..]) + [|l| as Byte] + l);
        Body(labels) + [|l| as Byte] + l;
      }
    }
  }

  // ----------------------------------------------------------------- decoding

  predicate Continuation(b: Byte) { 0x80 <= b < 0xC0 }

  /** Well-formed UTF-8, as table 3-7 of the Unicode Standard lists it. */
  predicate Utf8(s: Text) {
    s == [] ||
    if s[0] < 0x80 then Utf8(s[1..])
    else if 0xC2 <= s[0] < 0xE0 then |s| >= 2 && Continuation(s[1]) && Utf8(s[2..])
    else if 0xE0 <= s[0] < 0xF0 then
      && |s| >= 3 && Continuation(s[1]) && Continuation(s[2])
      && (s[0] == 0xE0 ==> s[1] >= 0xA0) && (s[0] == 0xED ==> s[1] < 0xA0) && Utf8(s[3..])
    else if 0xF0 <= s[0] < 0xF5 then
      && |s| >= 4 && Continuation(s[1]) && Continuation(s[2]) && Continuation(s[3])
      && (s[0] == 0xF0 ==> s[1] >= 0x90) && (s[0] == 0xF4 ==> s[1] < 0x90) && Utf8(s[4..])
    else false
  }

  lemma {:induction false} AsciiIsUtf8(s: Text)
    requires forall i :: 0 <= i < |s| ==> s[i] < 128
    ensures Utf8(s)
  {
    if s != [] { AsciiIsUtf8(s[1..]); }
  }

  /** What stands at one position of a packet. */
  datatype Item = Malformed | Root | Pointer(dest: nat) | Piece(text: Text)

  /** The low 14 bits of the two bytes of a pointer. */
  function Target(b: Text, p: nat): nat
    requires p + 2 <= |b| && b[p] >= 0xC0
  {
    (b[p] as int - 0xC0) * 256 + b[p + 1] as int
  }

  function ItemAt(b: Text, p: nat): (item: Item)
    ensures item.Pointer? ==> item.dest < p && p + 2 <= |b|
    ensures item.Root? ==> p < |b|
    ensures item.Piece? ==> 1 <= |item.text| <= MAX_LABEL && p + 1 + |item.text| <= |b|
  {
    if p >= |b| then Malformed
    else if b[p] >= 0xC0 then
      if p + 2 > |b| then Malformed
      else if Target(b, p) >= p then Malformed
      else Pointer(Target(b, p))
    else if b[p] == 0 then Root
    else if b[p] > MAX_LABEL || p + 1 + b[p] > |b| || !Utf8(b[p + 1..p + 1 + b[p]]) then Malformed
    else Piece(b[p + 1..p + 1 + b[p]])
  }

  function Append(out: Text, piece: Text): Text { if out == [] then piece else out + [DOT] + piece }

  /** The name at `p` after `out`, read without any limit on the number of steps. A label
      uses up the name's length budget and a pointer goes back, so reading ends. */
  function Read(b: Text, p: nat, out: Text): (r: Option<Text>)
    requires |out| <= MAX_NAME
    ensures r.Some? ==> |r.value| <= MAX_NAME
    decreases MAX_NAME - |out|, p
  {
    match ItemAt(b, p)
    case Malformed => None
    case Root => Some(out)
    case Pointer(dest) => Read(b, dest, out)
    case Piece(piece) => if |Append(out, piece)| > MAX_NAME then None else Read(b, p + 1 + |piece|, Append(out, piece))
  }

  /** How many items that takes. */
  function Steps(b: Text, p: nat, out: Text): nat
    requires |out| <= MAX_NAME
    decreases MAX_NAME - |out|, p
  {
    match ItemAt(b, p)
    case Pointer(dest) => 1 + Steps(b, dest, out)
    case Piece(piece) => if |Append(out, piece)| > MAX_NAME then 1 else 1 + Steps(b, p + 1 + |piece|, Append(out, piece))
    case _ => 1
  }

  /** Where the name ends in the packet: after its root, or after its first pointer. */
  function Cursor(b: Text, p: nat, out: Text): nat
    requires |out| <= MAX_NAME
    decreases MAX_NAME - |out|, p
  {
    match ItemAt(b, p)
    case Root => p + 1
    case Pointer(_) => p + 2
    case Piece(piece) => if |Append(out, piece)| > MAX_NAME then p else Cursor(b, p + 1 + |piece|, Append(out, piece))
    case Malformed => p
  }

  /** The decoder. It accepts exactly the names that take at most 128 steps to read, and
      then leaves the cursor past them, inside the packet. */
  method Name(b: Text, at: nat) returns (r: Option<Text>, at': nat)
    ensures r == if Steps(b, at, []) <= MAX_STEPS then Read(b, at, []) else None
    ensures r.Some? ==> at < at' <= |b| && at' == Cursor(b, at, [])
  {
    hide Utf8, ItemAt;
    at' := at;
    var out: Text, p: nat, jumped := [], at, false;
    for i := 0 to MAX_STEPS
      invariant |out| <= MAX_NAME
      invariant Read(b, p, out) == Read(b, at, []) && Steps(b, p, out) + i == Steps(b, at, [])
      invariant !jumped ==> at' == at <= p && Cursor(b, p, out) == Cursor(b, at, [])
      invariant jumped ==> at < at' <= |b| && at' == Cursor(b, at, [])
    {
      match ItemAt(b, p) {
        case Malformed =>
          return None, at';
        case Root =>
          if !jumped {
            at' := p + 1;
          }
          return Some(out), at';
        case Pointer(dest) =>
          if !jumped {
            at', jumped := p + 2, true;
          }
          p := dest;
        case Piece(piece) =>
          out := Append(out, piece);
          if |out| > MAX_NAME {
            return None, at';
          }
          p := p + 1 + |piece|;
      }
    }
    return None, at';
  }

  // --------------------------------------------------------------- round trip

  /** `part` stands at `p` in `b`. */
  predicate Holds(b: Text, p: nat, part: Text) { p + |part| <= |b| && forall i :: 0 <= i < |part| ==> b[p + i] == part[i] }

  function JoinAfter(out: Text, labels: seq<Text>): Text
    decreases |labels|
  {
    if labels == [] then out else JoinAfter(Append(out, labels[0]), labels[1..])
  }

  lemma {:induction false} JoinAfterIs(out: Text, labels: seq<Text>)
    requires forall i :: 0 <= i < |labels| ==> labels[i] != []
    ensures JoinAfter(out, labels) == if out == [] then Join(labels) else if labels == [] then out else out + [DOT] + Join(labels)
    decreases |labels|
  {
    if labels != [] {
      var next := Append(out, labels[0]);
      JoinAfterIs(next, labels[1..]);
      if |labels| > 1 && out != [] {
        assert next + [DOT] + Join(labels[1..]) == out + [DOT] + (labels[0] + [DOT] + Join(labels[1..]));
      }
    }
  }

  lemma Longer(out: Text, labels: seq<Text>)
    requires forall i :: 0 <= i < |labels| ==> labels[i] != []
    ensures |out| <= |JoinAfter(out, labels)|
  {
    JoinAfterIs(out, labels);
  }

  lemma {:induction false} ReadWire(b: Text, p: nat, out: Text, labels: seq<Text>)
    requires Labels(labels) && Holds(b, p, Wire(labels)) && |JoinAfter(out, labels)| <= MAX_NAME && |out| <= MAX_NAME
    ensures Read(b, p, out) == Some(JoinAfter(out, labels)) && Steps(b, p, out) == |labels| + 1
    ensures Cursor(b, p, out) == p + |Wire(labels)|
    decreases |labels|
  {
    hide Utf8, ItemAt;
    if labels == [] {
      assert Wire(labels) == [0];
      LastItem(b, p);
    } else {
      var l, rest := labels[0], labels[1..];
      FirstItem(b, p, labels);
      Longer(Append(out, l), rest);
      RestHolds(b, p, labels);
      ReadWire(b, p + 1 + |l|, Append(out, l), rest);
    }
  }

  lemma LastItem(b: Text, p: nat)
    requires Holds(b, p, [0])
    ensures ItemAt(b, p) == Root
  {
    var root: Text := [0];
    assert b[p + 0] == root[0];
  }

  lemma WireHead(labels: seq<Text>)
    requires Labels(labels) && labels != []
    ensures Label(labels[0]) && Wire(labels) == [|labels[0]| as Byte] + labels[0] + Wire(labels[1..])
  {}

  lemma FirstItem(b: Text, p: nat, labels: seq<Text>)
    requires Labels(labels) && labels != [] && Holds(b, p, Wire(labels))
    ensures ItemAt(b, p) == Piece(labels[0])
  {
    hide Utf8, Wire, Labels;
    var l, w := labels[0], Wire(labels);
    WireHead(labels);
    assert b[p + 0] == w[0] == |l|;
    assert b[p + 1..p + 1 + |l|] == l by {
      forall i | 0 <= i < |l| ensures b[p + 1 + i] == l[i] { assert b[p + (1 + i)] == w[1 + i] == l[i]; }
    }
    AsciiIsUtf8(l);
  }

  lemma RestHolds(b: Text, p: nat, labels: seq<Text>)
    requires Labels(labels) && labels != [] && Holds(b, p, Wire(labels))
    ensures Holds(b, p + 1 + |labels[0]|, Wire(labels[1..]))
  {
    hide Wire;
    WireHead(labels);
    var n, w, rest := 1 + |labels[0]|, Wire(labels), Wire(labels[1..]);
    forall i | 0 <= i < |rest| ensures b[p + n + i] == rest[i] { assert b[p + (n + i)] == w[n + i] == rest[i]; }
  }

  /** Every name the encoder accepts is decoded back exactly, wherever it stands in a
      packet: 253 characters and 127 labels are 128 steps. */
  lemma RoundTrip(name: Text, before: Text, after: Text)
    requires Encodable(name)
    ensures
      var wire := Wire(Split(TrimDots(name)));
      var b, at := before + wire + after, |before|;
      && Read(b, at, []) == Some(TrimDots(name)) && Steps(b, at, []) == |Split(TrimDots(name))| + 1 <= MAX_STEPS
      && Cursor(b, at, []) == at + |wire|
  {
    var labels := Split(TrimDots(name));
    var b := before + Wire(labels) + after;
    JoinSplit(TrimDots(name));
    WireLength(labels);
    JoinAfterIs([], labels);
    assert Holds(b, |before|, Wire(labels));
    ReadWire(b, |before|, [], labels);
  }

  /** `n` labels of one letter. */
  function Letters(n: nat): Text
    requires n > 0
  {
    if n == 1 then [97] else [97, DOT] + Letters(n - 1)
  }

  lemma {:induction false} LettersEnd(n: nat)
    requires n > 0
    ensures |Letters(n)| == 2 * n - 1 && Letters(n)[2 * n - 2] == 97
  {
    if n > 1 { LettersEnd(n - 1); }
  }

  lemma LettersHead(n: nat)
    requires n > 1
    ensures var s := Letters(n); DOT in s && FirstDot(s) == 1 && s[..1] == [97] && s[2..] == Letters(n - 1)
  {
    var s, tail := Letters(n), Letters(n - 1);
    hide Letters;
    assert s == [97, DOT] + tail by { LettersMore(n); }
    assert s[1] == DOT && s[1..][0] == DOT;
  }

  lemma LettersMore(n: nat)
    requires n > 1
    ensures Letters(n) == [97, DOT] + Letters(n - 1)
  {}

  lemma {:induction false} LettersSplit(n: nat)
    requires n > 0
    ensures |Split(Letters(n))| == n && Labels(Split(Letters(n)))
  {
    if n > 1 {
      hide Letters;
      LettersHead(n);
      LettersSplit(n - 1);
    }
  }

  /** The bound is tight: the encoded name of 253 characters and 127 labels takes exactly 128 steps. */
  lemma Tight(before: Text, after: Text)
    ensures Encodable(Letters(127)) && |Letters(127)| == MAX_NAME
    ensures
      var b := before + Wire(Split(TrimDots(Letters(127)))) + after;
      Read(b, |before|, []) == Some(Letters(127)) && Steps(b, |before|, []) == MAX_STEPS
  {
    hide Letters, Split, Read, Steps;
    LettersEnd(127);
    LettersSplit(127);
    RoundTrip(Letters(127), before, after);
  }

  // --------------------------------------------------------- where the cap bites

  /** A root followed by `n` pointers, each to the item before it. */
  function Chain(n: nat): Text
    requires n < 8192
    ensures |Chain(n)| == 2 * n + 1
  {
    if n == 0 then [0] else Chain(n - 1) + [0xC0 + Previous(n) / 256, Previous(n) % 256]
  }

  function Previous(n: nat): nat
    requires n > 0
  {
    if n == 1 then 0 else 2 * n - 3
  }

  lemma {:induction false} ChainReads(n: nat, i: nat)
    requires 0 < i <= n < 8192
    ensures Read(Chain(n), 2 * i - 1, []) == Some([]) && Steps(Chain(n), 2 * i - 1, []) == i + 1
    decreases i
  {
    ChainAt(n, i);
    if i == 1 {
      ChainRoot(n);
    } else {
      ChainReads(n, i - 1);
    }
  }

  lemma {:induction false} ChainAt(n: nat, i: nat)
    requires 0 < i <= n < 8192
    ensures ItemAt(Chain(n), 2 * i - 1) == Pointer(Previous(i))
  {
    if i < n { ChainAt(n - 1, i); }
  }

  lemma {:induction false} ChainRoot(n: nat)
    requires n < 8192
    ensures ItemAt(Chain(n), 0) == Root
  {
    if n > 0 { ChainRoot(n - 1); }
  }

  /** A name behind 128 pointers is well formed and the decoder refuses it. */
  lemma CapRefuses()
    ensures Read(Chain(128), 255, []) == Some([]) && Steps(Chain(128), 255, []) > MAX_STEPS
  {
    ChainReads(128, 128);
  }
}
