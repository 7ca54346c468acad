/** What a name may look like in a packet, with compression (section 4.1.4 of RFC 1035) and in
    UTF-8, told without the decoder; the decoder accepts exactly that. */
module DnsLayouts {
  import opened Types
  import opened DnsName

  // ----------------------------------------------------------------- layouts

  /** How a name is laid out in a packet: labels, the root, and pointers to where it goes on. */
  datatype Layout = Ended | Labelled(text: Text, rest: Layout) | Jumped(dest: nat, rest: Layout)

  /** The bytes from `p` on are laid out so (section 4.1.4 of RFC 1035); a pointer goes back. */
  predicate Stands(b: Text, p: nat, l: Layout)
    decreases l
  {
    match l
    case Ended => p < |b| && b[p] == 0
    case Labelled(text, rest) =>
      && 1 <= |text| <= MAX_LABEL && p + 1 + |text| <= |b|
      && b[p] == |text| && b[p + 1..p + 1 + |text|] == text && Utf8(text) && Stands(b, p + 1 + |text|, rest)
    case Jumped(dest, rest) =>
      p + 2 <= |b| && dest < 0x4000 && b[p] == 0xC0 + dest / 256 && b[p + 1] == dest % 256 && dest < p && Stands(b, dest, rest)
  }

  function Names(l: Layout): seq<Text> {
    match l
    case Ended => []
    case Labelled(text, rest) => [text] + Names(rest)
    case Jumped(_, rest) => Names(rest)
  }

  function Items(l: Layout): nat {
    match l
    case Ended => 1
    case Labelled(_, rest) => 1 + Items(rest)
    case Jumped(_, rest) => 1 + Items(rest)
  }

  /** Where the part of the name that stands at `p` ends. */
  function Past(p: nat, l: Layout): nat
    decreases l
  {
    match l
    case Ended => p + 1
    case Labelled(text, rest) => Past(p + 1 + |text|, rest)
    case Jumped(_, _) => p + 2
  }

  lemma {:induction false} NamesWhole(b: Text, p: nat, l: Layout)
    requires Stands(b, p, l)
    ensures forall i :: 0 <= i < |Names(l)| ==> Names(l)[i] != []
    decreases l
  {
    hide Utf8;
    match l
    case Ended =>
    case Labelled(text, rest) => NamesWhole(b, p + 1 + |text|, rest);
    case Jumped(dest, rest) => NamesWhole(b, dest, rest);
  }

  /** Whatever mix of labels and pointers a name is laid out with, it reads as all its labels. */
  lemma {:induction false} ReadsLayout(b: Text, p: nat, out: Text, l: Layout)
    requires Stands(b, p, l) && |out| <= MAX_NAME && |JoinAfter(out, Names(l))| <= MAX_NAME
    ensures Read(b, p, out) == Some(JoinAfter(out, Names(l)))
    ensures Steps(b, p, out) == Items(l) && Cursor(b, p, out) == Past(p, l)
    decreases l
  {
    hide Utf8;
    match l
    case Ended =>
    case Labelled(text, rest) =>
      NamesWhole(b, p + 1 + |text|, rest);
      Longer(Append(out, text), Names(rest));
      assert ([text] + Names(rest))[1..] == Names(rest);
      ReadsLayout(b, p + 1 + |text|, Append(out, text), rest);
    case Jumped(dest, rest) => ReadsLayout(b, dest, out, rest);
  }

  /** And whatever reads as a name is laid out as one. */
  lemma {:induction false} LaidOut(b: Text, p: nat, out: Text) returns (l: Layout)
    requires |out| <= MAX_NAME && Read(b, p, out).Some?
    ensures Stands(b, p, l) && Read(b, p, out) == Some(JoinAfter(out, Names(l))) && Items(l) == Steps(b, p, out)
    decreases MAX_NAME - |out|, p
  {
    hide Utf8;
    match ItemAt(b, p)
    case Root => l := Ended;
    case Pointer(dest) =>
      var rest := LaidOut(b, dest, out);
      l := Jumped(dest, rest);
    case Piece(piece) =>
      var rest := LaidOut(b, p + 1 + |piece|, Append(out, piece));
      l := Labelled(piece, rest);
      assert ([piece] + Names(rest))[1..] == Names(rest);
  }

  /** The decoder's answer, without naming how it reads: a packet holds the name `r` at `p` for it exactly
      if some layout of at most 128 items stands there whose labels make `r`, of at most 253 characters. */
  lemma NameExact(b: Text, p: nat, r: Text)
    ensures Steps(b, p, []) <= MAX_STEPS && Read(b, p, []) == Some(r) <==>
              exists l :: Stands(b, p, l) && Items(l) <= MAX_STEPS && Join(Names(l)) == r && |r| <= MAX_NAME
  {
    hide Read, Steps, Stands, Utf8;
    if Steps(b, p, []) <= MAX_STEPS && Read(b, p, []) == Some(r) {
      var l := LaidOut(b, p, []);
      NamesWhole(b, p, l);
      JoinAfterIs([], Names(l));
      ReadShort(b, p);
    }
    if l :| Stands(b, p, l) && Items(l) <= MAX_STEPS && Join(Names(l)) == r && |r| <= MAX_NAME {
      NamesWhole(b, p, l);
      JoinAfterIs([], Names(l));
      ReadsLayout(b, p, [], l);
    }
  }

  lemma ReadShort(b: Text, p: nat)
    ensures Read(b, p, []).Some? ==> |Read(b, p, []).value| <= MAX_NAME
  {}

  function Laid(labels: seq<Text>, rest: Layout): Layout
    decreases |labels|
  {
    if labels == [] then rest else Labelled(labels[0], Laid(labels[1..], rest))
  }

  lemma {:induction false} LaidNames(labels: seq<Text>, rest: Layout, p: nat)
    requires Labels(labels)
    ensures Names(Laid(labels, rest)) == labels + Names(rest) && Items(Laid(labels, rest)) == |labels| + Items(rest)
    ensures Past(p, Laid(labels, rest)) == Past(p + |Body(labels)|, rest)
    decreases |labels|
  {
    if labels == [] {
      assert labels + Names(rest) == Names(rest);
    } else {
      LaidNames(labels[1..], rest, p + 1 + |labels[0]|);
      assert labels + Names(rest) == [labels[0]] + (labels[1..] + Names(rest));
    }
  }

  lemma {:induction false} LaidStands(b: Text, p: nat, labels: seq<Text>, rest: Layout)
    requires Labels(labels) && Holds(b, p, Body(labels)) && Stands(b, p + |Body(labels)|, rest)
    ensures Stands(b, p, Laid(labels, rest))
    decreases |labels|
  {
    hide Utf8;
    if labels != [] {
      var l, tail := labels[0], labels[1..];
      BodyHead(b, p, labels);
      LaidStands(b, p + 1 + |l|, tail, rest);
    }
  }

  lemma BodyStep(labels: seq<Text>)
    requires Labels(labels) && labels != []
    ensures Label(labels[0]) && Labels(labels[1..]) && Body(labels) == [|labels[0]| as Byte] + labels[0] + Body(labels[1..])
  {}

  lemma BodyHead(b: Text, p: nat, labels: seq<Text>)
    requires Labels(labels) && labels != [] && Holds(b, p, Body(labels))
    ensures Label(labels[0]) && Utf8(labels[0]) && p + 1 + |labels[0]| <= |b|
    ensures b[p] == |labels[0]| && b[p + 1..p + 1 + |labels[0]|] == labels[0]
    ensures Holds(b, p + 1 + |labels[0]|, Body(labels[1..])) && |Body(labels)| == 1 + |labels[0]| + |Body(labels[1..])|
  {
    hide Utf8, Body, Labels;
    var l := labels[0];
    BodyStep(labels);
    HeadHolds(b, p, |l| as Byte, l, Body(labels[1..]));
    AsciiIsUtf8(l);
  }

  lemma HeadHolds(b: Text, p: nat, n: Byte, l: Text, tail: Text)
    requires Holds(b, p, [n] + l + tail)
    ensures b[p] == n && b[p + 1..p + 1 + |l|] == l && Holds(b, p + 1 + |l|, tail)
  {
    var w := [n] + l + tail;
    assert b[p + 0] == w[0];
    forall i | 0 <= i < |l| ensures b[p + 1 + i] == l[i] { assert b[p + (1 + i)] == w[1 + i]; }
    forall i | 0 <= i < |tail| ensures b[p + 1 + |l| + i] == tail[i] { assert b[p + (1 + |l| + i)] == w[1 + |l| + i]; }
  }

  /** A compressed name: labels and then a pointer to where an earlier name, or the end of one, stands. It
      reads as all the labels, in order; the pointer is one step more, and the cursor is past it. */
  lemma Compressed(b: Text, p: nat, prefix: seq<Text>, q: nat, rest: seq<Text>)
    requires Labels(prefix) && Labels(rest) && Holds(b, p, Body(prefix)) && q < 0x4000
    requires
      var at := p + |Body(prefix)|;
      q < at && at + 2 <= |b| && b[at] == 0xC0 + q / 256 && b[at + 1] == q % 256
    requires Holds(b, q, Wire(rest)) && |Join(prefix + rest)| <= MAX_NAME
    ensures Read(b, p, []) == Some(Join(prefix + rest)) && Steps(b, p, []) == |prefix| + |rest| + 2
    ensures Cursor(b, p, []) == p + |Body(prefix)| + 2
  {
    hide Utf8, Read, Steps, Cursor;
    WireEnds(b, q, rest);
    var tail := Laid(rest, Ended);
    LaidStands(b, q, rest, Ended);
    LaidNames(rest, Ended, q);
    var l := Laid(prefix, Jumped(q, tail));
    LaidStands(b, p, prefix, Jumped(q, tail));
    LaidNames(prefix, Jumped(q, tail), p);
    assert rest + [] == rest;
    JoinAfterIs([], prefix + rest);
    ReadsLayout(b, p, [], l);
  }

  lemma WireEnds(b: Text, q: nat, labels: seq<Text>)
    requires Labels(labels) && Holds(b, q, Wire(labels))
    ensures Holds(b, q, Body(labels)) && q + |Body(labels)| < |b| && b[q + |Body(labels)|] == 0
  {
    var w, body := Wire(labels), Body(labels);
    forall i | 0 <= i < |body| ensures b[q + i] == body[i] { assert w[i] == body[i]; }
    assert w[|body|] == 0;
  }

  // ------------------------------------------------------------------ UTF-8

  /** A Unicode scalar value, and its encoding. */
  predicate Scalar(c: nat) { c < 0xD800 || 0xE000 <= c < 0x11_0000 }

  function Coded(c: nat): Text
    requires Scalar(c)
  {
    if c < 0x80 then [c]
    else if c < 0x800 then [0xC0 + c / 64, 0x80 + c % 64]
    else if c < 0x1_0000 then [0xE0 + c / 4096, 0x80 + c / 64 % 64, 0x80 + c % 64]
    else [0xF0 + c / 26_2144, 0x80 + c / 4096 % 64, 0x80 + c / 64 % 64, 0x80 + c % 64]
  }

  predicate Scalars(cs: seq<nat>) { forall i :: 0 <= i < |cs| ==> Scalar(cs[i]) }

  function CodedAll(cs: seq<nat>): Text
    requires Scalars(cs)
    decreases |cs|
  {
    if cs == [] then [] else Coded(cs[0]) + CodedAll(cs[1..])
  }

  /** A label is text exactly if it encodes some sequence of scalar values. */
  lemma Utf8Exact(s: Text)
    ensures Utf8(s) <==> exists cs :: Scalars(cs) && CodedAll(cs) == s
  {
    if Utf8(s) { var cs := Decoded(s); }
    if cs :| Scalars(cs) && CodedAll(cs) == s { CodedIsUtf8(cs); }
  }

  lemma {:induction false} CodedIsUtf8(cs: seq<nat>)
    requires Scalars(cs)
    ensures Utf8(CodedAll(cs))
    decreases |cs|
  {
    if cs != [] {
      CodedIsUtf8(cs[1..]);
      var c, rest, s := cs[0], CodedAll(cs[1..]), CodedAll(cs);
      assert s == Coded(c) + rest && s[|Coded(c)|..] == rest;
      CodedHead(c, rest);
    }
  }

  lemma CodedHead(c: nat, rest: Text)
    requires Scalar(c) && Utf8(rest)
    ensures Utf8(Coded(c) + rest)
  {
    var s := Coded(c) + rest;
    assert s[|Coded(c)|..] == rest;
  }

  lemma {:induction false} Decoded(s: Text) returns (cs: seq<nat>)
    requires Utf8(s)
    ensures Scalars(cs) && CodedAll(cs) == s
    decreases |s|
  {
    if s == [] {
      cs := [];
    } else {
      var c, n := DecodedHead(s);
      var rest := Decoded(s[n..]);
      cs := [c] + rest;
      assert cs[1..] == rest && s == s[..n] + s[n..];
    }
  }

  lemma DecodedHead(s: Text) returns (c: nat, n: nat)
    requires s != [] && Utf8(s)
    ensures 0 < n <= |s| && Utf8(s[n..]) && Scalar(c) && Coded(c) == s[..n]
  {
    if s[0] < 0x80 {
      c, n := s[0], 1;
    } else if s[0] < 0xE0 {
      n := 2;
      c := Of2(s[0], s[1]);
    } else if s[0] < 0xF0 {
      n := 3;
      c := Of3(s[0], s[1], s[2]);
    } else {
      n := 4;
      c := Of4(s[0], s[1], s[2], s[3]);
    }
  }

  lemma Of2(x: Byte, y: Byte) returns (c: nat)
    requires 0xC2 <= x < 0xE0 && Continuation(y)
    ensures Scalar(c) && Coded(c) == [x, y]
  {
    c := (x as int - 0xC0) * 64 + (y as int - 0x80);
  }

  lemma Of3(x: Byte, y: Byte, z: Byte) returns (c: nat)
    requires 0xE0 <= x < 0xF0 && Continuation(y) && Continuation(z) && (x == 0xE0 ==> y >= 0xA0) && (x == 0xED ==> y < 0xA0)
    ensures Scalar(c) && Coded(c) == [x, y, z]
  {
    var high := (x as int - 0xE0) * 64 + (y as int - 0x80);
    c := high * 64 + (z as int - 0x80);
    assert c / 64 == high && c / 4096 == high / 64;
  }

  lemma Of4(x: Byte, y: Byte, z: Byte, w: Byte) returns (c: nat)
    requires 0xF0 <= x < 0xF5 && Continuation(y) && Continuation(z) && Continuation(w)
    requires (x == 0xF0 ==> y >= 0x90) && (x == 0xF4 ==> y < 0x90)
    ensures Scalar(c) && Coded(c) == [x, y, z, w]
  {
    var top := (x as int - 0xF0) * 64 + (y as int - 0x80);
    var high := top * 64 + (z as int - 0x80);
    c := high * 64 + (w as int - 0x80);
    assert c / 64 == high && c / 4096 == top && c / 26_2144 == top / 64;
  }

  /** The encoder ignores dots at the end, and nothing else. */
  lemma {:induction false} TrimsDots(s: Text)
    ensures TrimDots(s) <= s && forall i :: |TrimDots(s)| <= i < |s| ==> s[i] == DOT
    ensures TrimDots(s) == [] || TrimDots(s)[|TrimDots(s)| - 1] != DOT
  {
    if s != [] && s[|s| - 1] == DOT { TrimsDots(s[..|s| - 1]); }
  }
}
