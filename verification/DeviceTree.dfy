/**
  The walk over a flattened device tree undoes the encoding of section 5.4 of the Devicetree
  Specification: one call of handleProp for each property, in order.
*/
module DeviceTree {
  import opened Types

  const FDT_BEGIN_NODE: nat := 1
  const FDT_END_NODE: nat := 2
  const FDT_PROP: nat := 3
  const FDT_NOP: nat := 4
  const FDT_END: nat := 9

  // ----- trees and their encoding -----

  /** What stands between the begin and the end of a node: properties, subnodes, and padding tokens. */
  datatype Items =
    | End
    | Prop(nameoff: nat, value: seq<byte>, rest: Items)
    | Sub(name: seq<byte>, body: Items, rest: Items)
    | Nop(rest: Items)

  ghost predicate WellFormed(t: Items) {
    match t
    case End => true
    case Prop(o, v, r) => o < 0x1_0000_0000 && |v| < 0x1_0000_0000 && WellFormed(r)
    case Sub(n, b, r) => 0 !in n && WellFormed(b) && WellFormed(r)
    case Nop(r) => WellFormed(r)
  }

  /** The number of 4-byte words that hold n bytes. */
  function Words(n: nat): nat {
    n / 4 + if n % 4 != 0 then 1 else 0
  }

  lemma WordsIs(n: nat)
    ensures n <= 4 * Words(n) < n + 4
  {
  }

  /** c2ioff, whose argument is an unsigned int of 32 bits. */
  function C2IOff(charoff: nat): nat {
    Words(charoff % 0x1_0000_0000)
  }

  lemma C2IOffIff(n: nat)
    ensures C2IOff(n) == Words(n) <==> n < 0x1_0000_0000
  {
    WordsIs(n);
    WordsIs(n % 0x1_0000_0000);
  }

  function BigEndian(x: nat): seq<byte>
    requires x < 0x1_0000_0000
  {
    [(x / 256 / 256 / 256) as byte, (x / 256 / 256 % 256) as byte, (x / 256 % 256) as byte, (x % 256) as byte]
  }

  function Aligned(s: seq<byte>): seq<byte> {
    WordsIs(|s|);
    s + seq(4 * Words(|s|) - |s|, _ => 0 as byte)
  }

  ghost function Encode(t: Items): seq<byte>
    requires WellFormed(t)
  {
    match t
    case End => []
    case Prop(o, v, r) => BigEndian(FDT_PROP) + BigEndian(|v|) + BigEndian(o) + Aligned(v) + Encode(r)
    case Sub(n, b, r) => BigEndian(FDT_BEGIN_NODE) + Aligned(n + [0]) + Encode(b) + BigEndian(FDT_END_NODE) + Encode(r)
    case Nop(r) => BigEndian(FDT_NOP) + Encode(r)
  }

  lemma {:induction false} EncodedWords(t: Items)
    requires WellFormed(t)
    ensures |Encode(t)| % 4 == 0
  {
    hide BigEndian;
    hide Aligned;
    hide Words;
    match t {
      case End =>
      case Prop(o, v, r) =>
        WordLength(FDT_PROP);
        WordLength(|v|);
        WordLength(o);
        AlignedLength(v);
        EncodedWords(r);
      case Sub(n, b, r) =>
        WordLength(FDT_BEGIN_NODE);
        WordLength(FDT_END_NODE);
        AlignedLength(n + [0]);
        EncodedWords(b);
        EncodedWords(r);
      case Nop(r) =>
        WordLength(FDT_NOP);
        EncodedWords(r);
    }
  }

  // ----- the walk -----

  /** A call of handleProp; the name of the node is None where the walk passes NULL. */
  datatype Event = Event(name: Option<seq<byte>>, nameoff: nat, value: seq<byte>)

  /** How a walk ends: OK or SYSERR after some events, at a word; or outside of the blob. */
  datatype Outcome = Done(ok: bool, events: seq<Event>, stop: nat) | Outside

  function After(e: seq<Event>, o: Outcome): Outcome {
    if o.Done? then o.(events := e + o.events) else o
  }

  function ReadWord(blob: seq<byte>, i: nat): nat
    requires i + 4 <= |blob|
  {
    ((blob[i] as nat * 256 + blob[i + 1] as nat) * 256 + blob[i + 2] as nat) * 256 + blob[i + 3] as nat
  }

  /** strlen at i, if a terminator comes before the end of the blob. */
  function StrLen(blob: seq<byte>, i: nat): (n: Option<nat>)
    requires i <= |blob|
    ensures n.Some? ==> i + n.value < |blob|
    decreases |blob| - i
  {
    if i == |blob| then None
    else if blob[i] == 0 then Some(0)
    else match StrLen(blob, i + 1) case None => None case Some(n) => Some(n + 1)
  }

  function Walk(blob: seq<byte>, index: nat, name: Option<seq<byte>>): Outcome
    decreases |blob| - 4 * index
  {
    var p := 4 * index;
    if p + 4 > |blob| then Outside
    else
      var token := ReadWord(blob, p);
      if token == FDT_BEGIN_NODE then
        match StrLen(blob, p + 4)
        case None => Outside
        case Some(n) => Walk(blob, index + 1 + C2IOff(1 + n), Some(blob[p + 4..p + 4 + n]))
      else if token == FDT_PROP then
        if p + 12 > |blob| || p + 12 + ReadWord(blob, p + 4) > |blob| then Outside
        else
          var plen := ReadWord(blob, p + 4);
          After([Event(name, ReadWord(blob, p + 8), blob[p + 12..p + 12 + plen])],
                Walk(blob, index + 1 + C2IOff(8 + plen), name))
      else if token == FDT_END_NODE then Walk(blob, index + 1, None)
      else if token == FDT_NOP then Walk(blob, index + 1, name)
      else Done(token == FDT_END, [], index)
  }

  /** parseDtbNodes on a blob that its walk does not leave. */
  method ParseDtbNodes(blob: seq<byte>) returns (ok: bool, events: seq<Event>)
    requires |blob| < 0x1_0000_0000 && Walk(blob, 0, None).Done?
    ensures ok == Walk(blob, 0, None).ok && events == Walk(blob, 0, None).events
  {
    hide C2IOff;
    hide Walk;
    hide ReadWord;
    hide StrLen;
    var index, name := 0, None;
    events := [];
    NoEvents(Walk(blob, 0, None));
    while true
      invariant Walk(blob, 0, None) == After(events, Walk(blob, index, name))
      decreases |blob| - 4 * index
    {
      Unrolled(blob, index, name);
      var tokptr := 4 * index;
      var token := ReadWord(blob, tokptr);
      if token == FDT_BEGIN_NODE {
        var len := StrLen(blob, tokptr + 4).value;
        name := Some(blob[tokptr + 4..tokptr + 4 + len]);
        index := index + 1 + C2IOff(1 + len);
      } else if token == FDT_PROP {
        var plen := ReadWord(blob, tokptr + 4);
        var nameoff := ReadWord(blob, tokptr + 8);
        index := index + 1 + C2IOff(8 + plen);
        var e := Event(name, nameoff, blob[tokptr + 12..tokptr + 12 + plen]);
        AfterAfter(events, [e], Walk(blob, index, name));
        events := events + [e];
      } else if token == FDT_END_NODE {
        name := None;
        index := index + 1;
      } else if token == FDT_NOP {
        index := index + 1;
      } else {
        assert events + [] == events;
        return token == FDT_END, events;
      }
    }
  }

  /** One turn of the walk, token by token, inside the blob. */
  lemma Unrolled(blob: seq<byte>, index: nat, name: Option<seq<byte>>)
    requires Walk(blob, index, name).Done?
    ensures 4 * index + 4 <= |blob|
    ensures var p := 4 * index; var token := ReadWord(blob, p);
            && (token == FDT_BEGIN_NODE ==>
                  && StrLen(blob, p + 4).Some?
                  && var n := StrLen(blob, p + 4).value;
                     Walk(blob, index, name) == Walk(blob, index + 1 + C2IOff(1 + n), Some(blob[p + 4..p + 4 + n])))
            && (token == FDT_PROP ==>
                  && p + 12 <= |blob| && p + 12 + ReadWord(blob, p + 4) <= |blob|
                  && var plen := ReadWord(blob, p + 4);
                     Walk(blob, index, name) == After([Event(name, ReadWord(blob, p + 8), blob[p + 12..p + 12 + plen])],
                                                      Walk(blob, index + 1 + C2IOff(8 + plen), name)))
            && (token == FDT_END_NODE ==> Walk(blob, index, name) == Walk(blob, index + 1, None))
            && (token == FDT_NOP ==> Walk(blob, index, name) == Walk(blob, index + 1, name))
            && (token !in {FDT_BEGIN_NODE, FDT_PROP, FDT_END_NODE, FDT_NOP} ==>
                  Walk(blob, index, name) == Done(token == FDT_END, [], index))
  {
    hide ReadWord;
    hide StrLen;
    hide C2IOff;
  }

  lemma AfterAfter(a: seq<Event>, b: seq<Event>, o: Outcome)
    ensures After(a, After(b, o)) == After(a + b, o)
  {
    if o.Done? { assert a + (b + o.events) == a + b + o.events; }
  }

  // ----- what the walk reports -----

  /** The events of a list of items in the walk's own terms, and the name it carries on with. */
  ghost function Events(t: Items, name: Option<seq<byte>>): seq<Event> {
    match t
    case End => []
    case Prop(o, v, r) => [Event(name, o, v)] + Events(r, name)
    case Sub(n, b, r) => Events(b, Some(n)) + Events(r, None)
    case Nop(r) => Events(r, name)
  }

  ghost function NameAfter(t: Items, name: Option<seq<byte>>): Option<seq<byte>> {
    match t
    case End => name
    case Prop(_, _, r) => NameAfter(r, name)
    case Sub(_, _, r) => NameAfter(r, None)
    case Nop(r) => NameAfter(r, name)
  }

  /** s lies in the blob at byte i. */
  ghost predicate Lies(blob: seq<byte>, i: nat, s: seq<byte>) {
    i + |s| <= |blob| && blob[i..i + |s|] == s
  }

  lemma LiesSplit(blob: seq<byte>, i: nat, a: seq<byte>, b: seq<byte>)
    requires Lies(blob, i, a + b)
    ensures Lies(blob, i, a) && Lies(blob, i + |a|, b)
  {
    assert (a + b)[..|a|] == a && (a + b)[|a|..] == b;
  }

  lemma WordAt(blob: seq<byte>, i: nat, x: nat)
    requires x < 0x1_0000_0000 && Lies(blob, i, BigEndian(x))
    ensures i + 4 <= |blob| && ReadWord(blob, i) == x
  {
    var s := BigEndian(x);
    assert blob[i..i + 4] == s;
    assert blob[i] == s[0] && blob[i + 1] == s[1] && blob[i + 2] == s[2] && blob[i + 3] == s[3];
  }

  lemma AlignedLength(s: seq<byte>)
    ensures |Aligned(s)| == 4 * Words(|s|)
  {
  }

  lemma {:induction false} StringAt(blob: seq<byte>, i: nat, n: seq<byte>)
    requires Lies(blob, i, n + [0]) && 0 !in n
    ensures StrLen(blob, i) == Some(|n|) && blob[i..i + |n|] == n
    decreases n
  {
    var s := n + [0];
    assert blob[i..i + |s|] == s;
    assert blob[i] == s[0];
    LiesSplit(blob, i, n, [0]);
    if n != [] {
      assert n + [0] == [n[0]] + (n[1..] + [0]);
      LiesSplit(blob, i, [n[0]], n[1..] + [0]);
      StringAt(blob, i + 1, n[1..]);
    }
  }

  // ----- one token -----

  lemma PropToken(blob: seq<byte>, index: nat, name: Option<seq<byte>>, o: nat, v: seq<byte>)
    requires o < 0x1_0000_0000 && |v| < 0x1_0000_0000 && |blob| < 0x1_0000_0000
    requires Lies(blob, 4 * index, BigEndian(FDT_PROP) + BigEndian(|v|) + BigEndian(o) + Aligned(v))
    ensures Walk(blob, index, name) == After([Event(name, o, v)], Walk(blob, index + 3 + Words(|v|), name))
  {
    hide BigEndian;
    hide ReadWord;
    hide Words;
    WordLength(FDT_PROP);
    WordLength(|v|);
    WordLength(o);
    var a, b, c, d := BigEndian(FDT_PROP), BigEndian(|v|), BigEndian(o), Aligned(v);
    LiesSplit(blob, 4 * index, a + b + c, d);
    LiesSplit(blob, 4 * index, a + b, c);
    LiesSplit(blob, 4 * index, a, b);
    WordAt(blob, 4 * index, FDT_PROP);
    WordAt(blob, 4 * index + 4, |v|);
    WordAt(blob, 4 * index + 8, o);
    LiesSplit(blob, 4 * index + 12, v, d[|v|..]);
    C2IOffIff(8 + |v|);
    TwoMoreWords(|v|);
  }

  lemma TwoMoreWords(n: nat)
    ensures Words(8 + n) == 2 + Words(n)
  {
  }

  lemma WordLength(x: nat)
    requires x < 0x1_0000_0000
    ensures |BigEndian(x)| == 4
  {
  }

  lemma BeginToken(blob: seq<byte>, index: nat, name: Option<seq<byte>>, n: seq<byte>)
    requires 0 !in n && |blob| < 0x1_0000_0000 && Lies(blob, 4 * index, BigEndian(FDT_BEGIN_NODE) + Aligned(n + [0]))
    ensures Walk(blob, index, name) == Walk(blob, index + 1 + Words(1 + |n|), Some(n))
  {
    hide BigEndian;
    hide ReadWord;
    hide Words;
    WordLength(FDT_BEGIN_NODE);
    var d := Aligned(n + [0]);
    LiesSplit(blob, 4 * index, BigEndian(FDT_BEGIN_NODE), d);
    WordAt(blob, 4 * index, FDT_BEGIN_NODE);
    assert d == (n + [0]) + d[|n| + 1..];
    LiesSplit(blob, 4 * index + 4, n + [0], d[|n| + 1..]);
    StringAt(blob, 4 * index + 4, n);
    C2IOffIff(1 + |n|);
  }

  lemma PlainToken(blob: seq<byte>, index: nat, name: Option<seq<byte>>, token: nat)
    requires token == FDT_END_NODE || token == FDT_NOP || token == FDT_END
    requires Lies(blob, 4 * index, BigEndian(token))
    ensures token == FDT_END_NODE ==> Walk(blob, index, name) == Walk(blob, index + 1, None)
    ensures token == FDT_NOP ==> Walk(blob, index, name) == Walk(blob, index + 1, name)
    ensures token == FDT_END ==> Walk(blob, index, name) == Done(true, [], index)
  {
    hide BigEndian;
    hide ReadWord;
    WordLength(token);
    WordAt(blob, 4 * index, token);
  }

  // ----- the whole -----

  /** The walk over an encoded list reports its events and goes on behind it. */
  lemma {:induction false} WalkItems(blob: seq<byte>, index: nat, name: Option<seq<byte>>, t: Items)
    requires WellFormed(t) && |blob| < 0x1_0000_0000 && Lies(blob, 4 * index, Encode(t))
    ensures Walk(blob, index, name)
         == After(Events(t, name), Walk(blob, index + |Encode(t)| / 4, NameAfter(t, name)))
    decreases t
  {
    hide Walk;
    hide BigEndian;
    hide Words;
    hide Aligned;
    hide After;
    EncodedWords(t);
    match t {
      case End => NoEvents(Walk(blob, index, name));
      case Prop(o, v, r) =>
        WordLength(FDT_PROP);
        WordLength(|v|);
        WordLength(o);
        EncodedWords(r);
        var head := BigEndian(FDT_PROP) + BigEndian(|v|) + BigEndian(o) + Aligned(v);
        LiesSplit(blob, 4 * index, head, Encode(r));
        PropToken(blob, index, name, o, v);
        AlignedLength(v);
        var next := index + 3 + Words(|v|);
        assert 4 * next == 4 * index + |head|;
        WalkItems(blob, next, name, r);
        AfterAfter([Event(name, o, v)], Events(r, name), Walk(blob, next + |Encode(r)| / 4, NameAfter(r, name)));
      case Sub(n, b, r) => WalkSub(blob, index, name, n, b, r);
      case Nop(r) =>
        WordLength(FDT_NOP);
        EncodedWords(r);
        LiesSplit(blob, 4 * index, BigEndian(FDT_NOP), Encode(r));
        PlainToken(blob, index, name, FDT_NOP);
        WalkItems(blob, index + 1, name, r);
    }
  }

  lemma EncodeSub(n: seq<byte>, b: Items, r: Items)
    requires WellFormed(Sub(n, b, r))
    ensures Encode(Sub(n, b, r))
         == BigEndian(FDT_BEGIN_NODE) + Aligned(n + [0]) + Encode(b) + BigEndian(FDT_END_NODE) + Encode(r)
  {
  }

  lemma NoEvents(o: Outcome)
    ensures After([], o) == o
  {
  }

  lemma {:induction false} WalkSub(blob: seq<byte>, index: nat, name: Option<seq<byte>>, n: seq<byte>,
                                   b: Items, r: Items)
    requires WellFormed(Sub(n, b, r)) && |blob| < 0x1_0000_0000 && Lies(blob, 4 * index, Encode(Sub(n, b, r)))
    ensures Walk(blob, index, name)
         == After(Events(b, Some(n)) + Events(r, None),
                  Walk(blob, index + |Encode(Sub(n, b, r))| / 4, NameAfter(r, None)))
    decreases Sub(n, b, r), 0
  {
    hide Walk;
    hide BigEndian;
    hide Words;
    hide Aligned;
    hide After;
    hide Encode;
    EncodeSub(n, b, r);
    WordLength(FDT_BEGIN_NODE);
    WordLength(FDT_END_NODE);
    EncodedWords(b);
    EncodedWords(r);
    var head, last := BigEndian(FDT_BEGIN_NODE) + Aligned(n + [0]), BigEndian(FDT_END_NODE);
    LiesSplit(blob, 4 * index, head + Encode(b) + last, Encode(r));
    LiesSplit(blob, 4 * index, head + Encode(b), last);
    LiesSplit(blob, 4 * index, head, Encode(b));
    BeginToken(blob, index, name, n);
    AlignedLength(n + [0]);
    assert |n + [0]| == 1 + |n|;
    var first := index + 1 + Words(1 + |n|);
    assert 4 * first == 4 * index + |head|;
    WalkItems(blob, first, Some(n), b);
    var second := first + |Encode(b)| / 4;
    PlainToken(blob, second, NameAfter(b, Some(n)), FDT_END_NODE);
    WalkItems(blob, second + 1, None, r);
    AfterAfter(Events(b, Some(n)), Events(r, None), Walk(blob, second + 1 + |Encode(r)| / 4, NameAfter(r, None)));
  }

  /** The events with each property under the name of its own node. */
  ghost function OwnEvents(t: Items, name: seq<byte>): seq<Event> {
    match t
    case End => []
    case Prop(o, v, r) => [Event(Some(name), o, v)] + OwnEvents(r, name)
    case Sub(n, b, r) => OwnEvents(b, n) + OwnEvents(r, name)
    case Nop(r) => OwnEvents(r, name)
  }

  ghost predicate HasProp(t: Items) {
    match t
    case End => false
    case Prop(_, _, _) => true
    case Sub(_, _, r) => HasProp(r)
    case Nop(r) => HasProp(r)
  }

  /** In no node does a property come after a subnode, as the specification asks. */
  ghost predicate PropsFirst(t: Items) {
    match t
    case End => true
    case Prop(_, _, r) => PropsFirst(r)
    case Sub(_, b, r) => PropsFirst(b) && PropsFirst(r) && !HasProp(r)
    case Nop(r) => PropsFirst(r)
  }

  lemma {:induction false} SameLength(t: Items, name: Option<seq<byte>>, own: seq<byte>)
    ensures |Events(t, name)| == |OwnEvents(t, own)|
    decreases t
  {
    match t {
      case End =>
      case Prop(_, _, r) => SameLength(r, name, own);
      case Sub(n, b, r) => SameLength(b, Some(n), n); SameLength(r, None, own);
      case Nop(r) => SameLength(r, name, own);
    }
  }

  /** Items with no property of their own do not need the name. */
  lemma {:induction false} NameUnused(t: Items, name: Option<seq<byte>>, name': Option<seq<byte>>)
    requires !HasProp(t)
    ensures Events(t, name) == Events(t, name')
    decreases t
  {
    match t {
      case End =>
      case Sub(n, b, r) =>
      case Nop(r) => NameUnused(r, name, name');
    }
  }

  lemma {:induction false} NoNameShows(t: Items, own: seq<byte>)
    requires HasProp(t)
    ensures Events(t, None) != OwnEvents(t, own)
    decreases t
  {
    match t {
      case Prop(o, v, r) => assert Events(t, None)[0] != OwnEvents(t, own)[0];
      case Sub(n, b, r) =>
        NoNameShows(r, own);
        SameLength(b, Some(n), n);
        ConcatCancel(Events(b, Some(n)), Events(r, None), OwnEvents(b, n), OwnEvents(r, own));
      case Nop(r) => NoNameShows(r, own);
    }
  }

  lemma ConcatCancel(a: seq<Event>, b: seq<Event>, c: seq<Event>, d: seq<Event>)
    requires |a| == |c|
    ensures a + b == c + d <==> a == c && b == d
  {
    if a + b == c + d {
      assert a == (a + b)[..|a|] == (c + d)[..|a|] == c;
      assert b == (a + b)[|a|..] == (c + d)[|a|..] == d;
    }
  }

  /** Each property is reported under its own node's name exactly when properties come before subnodes. */
  lemma {:induction false} OwnNamesIff(t: Items, name: seq<byte>)
    ensures Events(t, Some(name)) == OwnEvents(t, name) <==> PropsFirst(t)
    decreases t
  {
    match t {
      case End =>
      case Prop(o, v, r) =>
        OwnNamesIff(r, name);
        ConcatCancel([Event(Some(name), o, v)], Events(r, Some(name)), [Event(Some(name), o, v)], OwnEvents(r, name));
      case Sub(n, b, r) =>
        OwnNamesIff(b, n);
        OwnNamesIff(r, name);
        SameLength(b, Some(n), n);
        ConcatCancel(Events(b, Some(n)), Events(r, None), OwnEvents(b, n), OwnEvents(r, name));
        if HasProp(r) { NoNameShows(r, name); } else { NameUnused(r, None, Some(name)); }
      case Nop(r) => OwnNamesIff(r, name);
    }
  }

  /** A property behind a subnode is reported without the name of its node. */
  lemma NameLost(name: seq<byte>, n: seq<byte>, o: nat, v: seq<byte>)
    ensures var t := Sub(n, End, Prop(o, v, End));
            && Events(t, Some(name)) == [Event(None, o, v)] && OwnEvents(t, name) == [Event(Some(name), o, v)]
            && Events(t, Some(name)) != OwnEvents(t, name)
  {
    var t, p := Sub(n, End, Prop(o, v, End)), Prop(o, v, End);
    assert Events(End, None) == [] && OwnEvents(End, name) == [];
    assert Events(p, None) == [Event(None, o, v)] + Events(End, None);
    assert OwnEvents(p, name) == [Event(Some(name), o, v)] + OwnEvents(End, name);
    assert Events(t, Some(name)) == [] + Events(p, None) && OwnEvents(t, name) == [] + OwnEvents(p, name);
    assert Events(t, Some(name))[0] != OwnEvents(t, name)[0];
  }

  /**
    On the encoding of any tree, in a blob whose size fits the 32 bits its header has for it and
    with anything behind it, the walk succeeds, stops at the end token, and reports every property
    once and in order; and each under the name of its own node exactly when the tree has its
    properties first.
  */
  lemma ParseUndoesEncode(name: seq<byte>, body: Items, behind: seq<byte>)
    requires WellFormed(Sub(name, body, End)) && |Encode(Sub(name, body, End))| + 4 + |behind| < 0x1_0000_0000
    ensures var t := Sub(name, body, End); var blob := Encode(t) + BigEndian(FDT_END) + behind;
            && Walk(blob, 0, None) == Done(true, Events(body, Some(name)), |Encode(t)| / 4)
            && (Walk(blob, 0, None).events == OwnEvents(body, name) <==> PropsFirst(body))
  {
    hide Walk;
    hide BigEndian;
    var t := Sub(name, body, End);
    var blob := Encode(t) + BigEndian(FDT_END) + behind;
    EncodedWords(t);
    WordLength(FDT_END);
    assert Lies(blob, 4 * 0, Encode(t));
    assert Lies(blob, |Encode(t)|, BigEndian(FDT_END));
    WalkItems(blob, 0, None, t);
    PlainToken(blob, |Encode(t)| / 4, None, FDT_END);
    assert Events(t, None) == Events(body, Some(name)) + [] == Events(body, Some(name));
    OwnNamesIff(body, name);
  }

  /** A small blob as it lies in memory: node "a" with a padding token and one property of two bytes. */
  function Sample(): seq<byte> {
    [0, 0, 0, 1] + ([0x61, 0, 0, 0] + ([0, 0, 0, 4] + SampleProp()))
  }

  function SampleProp(): seq<byte> {
    [0, 0, 0, 3] + ([0, 0, 0, 2] + ([0, 0, 0, 5] + ([0xAA, 0xBB, 0, 0] + ([0, 0, 0, 2] + [0, 0, 0, 9]))))
  }

  /** The row at place i of a blob, and what follows it. */
  lemma RowAt(blob: seq<byte>, i: nat, row: seq<byte>, rest: seq<byte>)
    requires i <= |blob| && blob[i..] == row + rest && |row| == 4
    ensures i + 4 <= |blob| && blob[i + 4..] == rest
    ensures blob[i] == row[0] && blob[i + 1] == row[1] && blob[i + 2] == row[2] && blob[i + 3] == row[3]
    ensures ReadWord(blob, i)
            == ((row[0] as nat * 256 + row[1] as nat) * 256 + row[2] as nat) * 256 + row[3] as nat
  {
    assert blob[i..][4..] == rest;
    assert blob[i..][0] == row[0] && blob[i..][1] == row[1] && blob[i..][2] == row[2] && blob[i..][3] == row[3];
  }

  lemma SampleWords()
    ensures var b := Sample();
            && |b| == 36 && ReadWord(b, 0) == 1 && ReadWord(b, 8) == 4 && b[12..] == SampleProp()
            && b[4] == 0x61 && b[5] == 0
  {
    hide ReadWord;
    hide SampleProp;
    var b := Sample();
    SamplePropWords(SampleProp(), 0);
    assert b[0..] == b;
    RowAt(b, 0, [0, 0, 0, 1], [0x61, 0, 0, 0] + ([0, 0, 0, 4] + SampleProp()));
    RowAt(b, 4, [0x61, 0, 0, 0], [0, 0, 0, 4] + SampleProp());
    RowAt(b, 8, [0, 0, 0, 4], SampleProp());
  }

  lemma SamplePropWords(b: seq<byte>, i: nat)
    requires i <= |b| && b[i..] == SampleProp()
    ensures |b| == i + 24 && ReadWord(b, i) == 3 && ReadWord(b, i + 4) == 2 && ReadWord(b, i + 8) == 5
    ensures b[i + 12] == 0xAA && b[i + 13] == 0xBB && ReadWord(b, i + 16) == 2 && ReadWord(b, i + 20) == 9
  {
    hide ReadWord;
    RowAt(b, i, [0, 0, 0, 3], [0, 0, 0, 2] + ([0, 0, 0, 5] + ([0xAA, 0xBB, 0, 0] + ([0, 0, 0, 2] + [0, 0, 0, 9]))));
    RowAt(b, i + 4, [0, 0, 0, 2], [0, 0, 0, 5] + ([0xAA, 0xBB, 0, 0] + ([0, 0, 0, 2] + [0, 0, 0, 9])));
    RowAt(b, i + 8, [0, 0, 0, 5], [0xAA, 0xBB, 0, 0] + ([0, 0, 0, 2] + [0, 0, 0, 9]));
    RowAt(b, i + 12, [0xAA, 0xBB, 0, 0], [0, 0, 0, 2] + [0, 0, 0, 9]);
    RowAt(b, i + 16, [0, 0, 0, 2], [0, 0, 0, 9]);
    assert [0, 0, 0, 9] + [] == [0 as byte, 0, 0, 9];
    RowAt(b, i + 20, [0, 0, 0, 9], []);
  }

  /** Its walk, token by token. */
  lemma SampleWalk()
    ensures Walk(Sample(), 0, None) == Done(true, [Event(Some([0x61]), 5, [0xAA, 0xBB])], 8)
  {
    hide Walk;
    hide Sample;
    hide SampleProp;
    hide ReadWord;
    var b, a, e := Sample(), Some([0x61 as byte]), Event(Some([0x61 as byte]), 5, [0xAA, 0xBB]);
    SampleWords();
    SamplePropWords(b, 12);
    assert StrLen(b, 5) == Some(0);
    assert b[4..5] == [0x61] && b[24..26] == [0xAA, 0xBB] && C2IOff(2) == 1 && C2IOff(10) == 3;
    TokenIs(b, 0, None);
    TokenIs(b, 2, a);
    TokenIs(b, 3, a);
    TokenIs(b, 7, a);
    TokenIs(b, 8, None);
    assert [e] + [] == [e];
  }

  /** What the walk does at each token, by its number. */
  lemma TokenIs(blob: seq<byte>, index: nat, name: Option<seq<byte>>)
    requires 4 * index + 4 <= |blob|
    ensures var p := 4 * index; var t := ReadWord(blob, p);
            && (t == 1 && StrLen(blob, p + 4).Some? ==>
                  var n := StrLen(blob, p + 4).value;
                  Walk(blob, index, name) == Walk(blob, index + 1 + C2IOff(1 + n), Some(blob[p + 4..p + 4 + n])))
            && (t == 2 ==> Walk(blob, index, name) == Walk(blob, index + 1, None))
            && (t == 3 && p + 12 <= |blob| && p + 12 + ReadWord(blob, p + 4) <= |blob| ==>
                  var len := ReadWord(blob, p + 4);
                  Walk(blob, index, name) == After([Event(name, ReadWord(blob, p + 8), blob[p + 12..p + 12 + len])],
                                                   Walk(blob, index + 1 + C2IOff(8 + len), name)))
            && (t == 4 ==> Walk(blob, index, name) == Walk(blob, index + 1, name))
            && (t == 0 || t > 4 ==> Walk(blob, index, name) == Done(t == 9, [], index))
  {
    hide ReadWord;
    hide StrLen;
    hide C2IOff;
  }
}
