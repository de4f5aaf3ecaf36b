/** Printing structured data and reading it back by the grammar of section 6.3 of RFC 5424. */
module SdataText {
  import opened Wrappers
  import opened Sdata

  // ----- escaping

  const HEX := "0123456789ABCDEF"

  function HexDigit(d: nat): char { HEX[d % 16] }

  predicate Special(c: char) { c as int >= 128 || c in {'=', ' ', '[', ']', '"'} }

  /** A byte of a block or parameter name: %XX if it could not stand in a name. */
  function KeyByte(c: char): string {
    if Special(c) then ['%', HexDigit(c as int / 16), HexDigit(c as int)] else [c]
  }

  function KeyText(s: string): string {
    if s == "" then "" else KeyText(s[..|s| - 1]) + KeyByte(s[|s| - 1])
  }

  function ValueByte(c: char): string { if c in {'"', '\\', ']'} then ['\\', c] else [c] }

  function ValueText(s: string): string {
    if s == "" then "" else ValueText(s[..|s| - 1]) + ValueByte(s[|s| - 1])
  }

  method AppendKeyEscaped(result: string, s: string) returns (r: string)
    ensures r == result + KeyText(s)
  {
    r := result;
    for i := 0 to |s|
      invariant r == result + KeyText(s[..i])
    {
      assert s[..i + 1][..i] == s[..i];
      if s[i] as int >= 128 || s[i] == '=' || s[i] == ' ' || s[i] == '[' || s[i] == ']' || s[i] == '"' {
        r := r + ['%', HexDigit(s[i] as int / 16), HexDigit(s[i] as int)];
      } else {
        r := r + [s[i]];
      }
    }
    assert s[..|s|] == s;
  }

  method AppendEscaped(result: string, s: string) returns (r: string)
    ensures r == result + ValueText(s)
  {
    r := result;
    for i := 0 to |s|
      invariant r == result + ValueText(s[..i])
    {
      assert s[..i + 1][..i] == s[..i];
      if s[i] == '"' || s[i] == '\\' || s[i] == ']' {
        r := r + ['\\'];
        r := r + [s[i]];
      } else {
        r := r + [s[i]];
      }
    }
    assert s[..|s|] == s;
  }

  // ----- blocks and their text

  /** An element of the array: its name, the length of its id as kept with the handle (0 if
      it is not known) and its value. */
  datatype Element = Element(name: string, idLen: nat, value: string)

  datatype Entry = Entry(id: string, param: string, value: string)
  datatype Param = Param(name: string, value: string)
  datatype Block = Block(id: string, params: seq<Param>)

  /** What the printer asserts of a name. */
  predicate WellNamed(e: Element) {
    && PREFIX <= e.name
    && var dot := |PREFIX| + e.idLen;
       e.idLen > 0 ==> dot <= |e.name| && (dot < |e.name| ==> e.name[dot] == '.')
  }

  /** The dot between id and parameter: after an id of known length, else the last one. */
  function DotOf(e: Element): (d: Option<nat>)
    requires WellNamed(e)
    ensures d.Some? ==> |PREFIX| <= d.value < |e.name|
  {
    var elem := e.name[|PREFIX|..];
    if e.idLen > 0 then (if |PREFIX| + e.idLen == |e.name| then None else Some(|PREFIX| + e.idLen))
    else if '.' in elem then Some(|PREFIX| + LastDot(elem)) else None
  }

  /** A name without that dot is a block without parameters. */
  function EntryOf(e: Element): Entry
    requires WellNamed(e)
  {
    match DotOf(e)
    case Some(d) => Entry(e.name[|PREFIX|..d], e.name[d + 1..], e.value)
    case None =>
      var id := e.name[|PREFIX|..];
      Entry(if id == "" then "none" else id, "", e.value)
  }

  function Split(es: seq<Element>): (r: seq<Entry>)
    requires forall i :: 0 <= i < |es| ==> WellNamed(es[i])
  {
    seq(|es|, i requires 0 <= i < |es| => EntryOf(es[i]))
  }

  /** Whether or not the length of its id is known, .SDATA.id.param is split where it should. */
  lemma NameSplit(n: Name, known: bool, value: string)
    requires ValidName(n)
    ensures var e := Element(Text(n), if known then |n.id| else 0, value);
            WellNamed(e) && EntryOf(e) == Entry(n.id, n.param, value)
  {
    hide LastDot, Text;
    var t := Text(n);
    TextParts(n);
    LastDotBefore(n.id, n.param);
  }

  lemma TextParts(n: Name)
    requires n.Name?
    ensures var t := Text(n);
            var d := |PREFIX| + |n.id|;
            && PREFIX <= t && d < |t| && t[|PREFIX|..] == n.id + "." + n.param
            && t[d] == '.' && t[|PREFIX|..d] == n.id && t[d + 1..] == n.param
  {
    var t := Text(n);
    assert t == PREFIX + (n.id + "." + n.param);
    assert t[|PREFIX|..|PREFIX| + |n.id|] == n.id;
    assert t[|PREFIX| + |n.id| + 1..] == n.param;
  }

  function OwnParam(e: Entry): seq<Param> { if e.param == "" then [] else [Param(e.param, e.value)] }

  /** Neighbouring entries of the same id make up a block. */
  function Group(es: seq<Entry>): seq<Block> {
    if es == [] then []
    else
      var g := Group(es[..|es| - 1]);
      var e := es[|es| - 1];
      if g != [] && g[|g| - 1].id == e.id
      then g[..|g| - 1] + [g[|g| - 1].(params := g[|g| - 1].params + OwnParam(e))]
      else g + [Block(e.id, OwnParam(e))]
  }

  function ParamText(p: Param): string { " " + KeyText(p.name) + "=\"" + ValueText(p.value) + "\"" }

  function ParamsText(ps: seq<Param>): string {
    if ps == [] then "" else ParamText(ps[0]) + ParamsText(ps[1..])
  }

  /** A block without its closing bracket. */
  function OpenText(b: Block): string { "[" + KeyText(b.id) + ParamsText(b.params) }

  function BlocksText(bs: seq<Block>): string {
    if bs == [] then "" else OpenText(bs[0]) + "]" + BlocksText(bs[1..])
  }

  lemma {:induction false} ParamsAppend(ps: seq<Param>, p: Param)
    ensures ParamsText(ps + [p]) == ParamsText(ps) + ParamText(p)
  {
    if ps == [] {
      assert ParamsText([p][1..]) == "";
    } else {
      assert (ps + [p])[1..] == ps[1..] + [p];
      ParamsAppend(ps[1..], p);
    }
  }

  lemma {:induction false} BlocksAppend(bs: seq<Block>, b: Block)
    ensures BlocksText(bs + [b]) == BlocksText(bs) + OpenText(b) + "]"
  {
    if bs == [] {
      assert BlocksText([b][1..]) == "";
    } else {
      assert (bs + [b])[1..] == bs[1..] + [b];
      BlocksAppend(bs[1..], b);
    }
  }

  /** What has been printed while the last block is still open. */
  function Pending(bs: seq<Block>): string {
    if bs == [] then "" else BlocksText(bs[..|bs| - 1]) + OpenText(bs[|bs| - 1])
  }

  lemma PendingNew(bs: seq<Block>, b: Block)
    ensures Pending(bs + [b]) == if bs == [] then OpenText(b) else Pending(bs) + "]" + OpenText(b)
  {
    assert (bs + [b])[..|bs|] == bs;
    if bs != [] {
      BlocksAppend(bs[..|bs| - 1], bs[|bs| - 1]);
      assert bs == bs[..|bs| - 1] + [bs[|bs| - 1]];
    }
  }

  lemma PendingMore(bs: seq<Block>, p: Param)
    requires bs != []
    ensures var l := bs[|bs| - 1];
            Pending(bs[..|bs| - 1] + [l.(params := l.params + [p])]) == Pending(bs) + ParamText(p)
  {
    hide BlocksText, ParamsText, ParamText, KeyText;
    var l := bs[|bs| - 1];
    var more := bs[..|bs| - 1] + [l.(params := l.params + [p])];
    assert more[..|bs| - 1] == bs[..|bs| - 1];
    ParamsAppend(l.params, p);
    assert OpenText(l.(params := l.params + [p])) == OpenText(l) + ParamText(p);
  }

  lemma Closed(bs: seq<Block>)
    requires bs != []
    ensures BlocksText(bs) == Pending(bs) + "]"
  {
    hide BlocksText, OpenText;
    assert bs == bs[..|bs| - 1] + [bs[|bs| - 1]];
    BlocksAppend(bs[..|bs| - 1], bs[|bs| - 1]);
  }

  /** `g` with the entry put into its last block. */
  function Extended(g: seq<Block>, e: Entry): seq<Block>
    requires g != []
  {
    g[..|g| - 1] + [g[|g| - 1].(params := g[|g| - 1].params + OwnParam(e))]
  }

  function LastId(g: seq<Block>): Option<string> { if g == [] then None else Some(g[|g| - 1].id) }

  method OpenBlock(result: string, cur: Option<string>, id: string, ghost g: seq<Block>) returns (r: string)
    requires result == Pending(g) && cur == LastId(g)
    ensures r == Pending(g + [Block(id, [])])
  {
    hide Pending, KeyText;
    PendingNew(g, Block(id, []));
    r := result;
    if cur.Some? {
      r := r + "]";
    }
    r := r + "[";
    r := AppendKeyEscaped(r, id);
    NoText(g);
  }

  lemma NoText(g: seq<Block>)
    ensures g == [] ==> Pending(g) == "" && BlocksText(g) == ""
  {
  }

  method AddParam(result: string, e: Entry, ghost g: seq<Block>) returns (r: string)
    requires result == Pending(g) && g != []
    ensures r == Pending(Extended(g, e))
  {
    hide Pending, KeyText, ValueText;
    r := result;
    if e.param != "" {
      PendingMore(g, Param(e.param, e.value));
      r := r + " ";
      r := AppendKeyEscaped(r, e.param);
      r := r + "=\"";
      r := AppendEscaped(r, e.value);
      r := r + "\"";
    } else {
      var l := g[|g| - 1];
      assert l.params + [] == l.params;
      assert g[..|g| - 1] + [l] == g;
    }
  }

  /** log_msg_append_format_sdata() with seq_num 0. */
  method Format(elements: seq<Element>) returns (result: string)
    requires forall i :: 0 <= i < |elements| ==> WellNamed(elements[i])
    ensures result == BlocksText(Group(Split(elements)))
  {
    hide Pending, BlocksText, Extended, EntryOf;
    ghost var es := Split(elements);
    result := "";
    var cur: Option<string> := None;
    NoText([]);
    for i := 0 to |elements|
      invariant result == Pending(Group(es[..i])) && cur == LastId(Group(es[..i]))
    {
      var e := EntryOf(elements[i]);
      ghost var g := Group(es[..i]);
      assert es[..i + 1][..i] == es[..i];
      Joins(es[..i + 1]);
      if cur == None || cur.value != e.id {
        result := OpenBlock(result, cur, e.id, g);
        cur := Some(e.id);
        g := g + [Block(e.id, [])];
      }
      result := AddParam(result, e, g);
    }
    assert es[..|es|] == es;
    NoText(Group(es));
    if cur.Some? {
      Closed(Group(es));
      result := result + "]";
    }
  }

  /** An entry goes into the last block, which is opened for it if it has another id. */
  lemma Joins(es: seq<Entry>)
    requires es != []
    ensures var h := Group(es[..|es| - 1]);
            var e := es[|es| - 1];
            var g := if LastId(h) == Some(e.id) then h else h + [Block(e.id, [])];
            Group(es) == Extended(g, e) && LastId(Group(es)) == Some(e.id)
  {
    var h := Group(es[..|es| - 1]);
    var e := es[|es| - 1];
    assert [] + OwnParam(e) == OwnParam(e);
    assert (h + [Block(e.id, [])])[..|h|] == h;
  }

  // ----- the grammar of section 6.3 of RFC 5424

  /** Characters that cannot stand in an SD-NAME and so end it. */
  predicate Stop(c: char) { c in {' ', '=', ']', '"'} }

  function NameEnd(s: string): (n: nat)
    ensures n <= |s| && (n < |s| ==> Stop(s[n])) && forall i :: 0 <= i < n ==> !Stop(s[i])
  {
    if s == "" || Stop(s[0]) then 0
    else
      assert s == [s[0]] + s[1..];
      1 + NameEnd(s[1..])
  }

  /** PARAM-VALUE up to and including the closing quote; what is left after it. */
  function ReadValue(s: string): (r: Option<(string, string)>)
    ensures r.Some? ==> |r.value.1| < |s|
    decreases |s|
  {
    if s == "" || s[0] == ']' then None
    else if s[0] == '"' then Some(("", s[1..]))
    else
      var escaped := s[0] == '\\' && |s| > 1 && s[1] in {'"', '\\', ']'};
      var rest := ReadValue(if escaped then s[2..] else s[1..]);
      if rest == None then None
      else Some(([if escaped then s[1] else s[0]] + rest.value.0, rest.value.1))
  }

  /** *(SP SD-PARAM) "]" */
  function ReadParams(s: string): (r: Option<(seq<Param>, string)>)
    ensures r.Some? ==> |r.value.1| < |s|
    decreases |s|
  {
    if s == "" then None
    else if s[0] == ']' then Some(([], s[1..]))
    else if s[0] != ' ' then None
    else
      var n := NameEnd(s[1..]);
      var after := s[1 + n..];
      if n == 0 || |after| < 2 || after[0] != '=' || after[1] != '"' then None
      else
        var v := ReadValue(after[2..]);
        if v == None then None
        else
          var more := ReadParams(v.value.1);
          if more == None then None
          else Some(([Param(s[1..1 + n], v.value.0)] + more.value.0, more.value.1))
  }

  /** *SD-ELEMENT */
  function ReadBlocks(s: string): Option<seq<Block>>
    decreases |s|
  {
    if s == "" then Some([])
    else if s[0] != '[' then None
    else
      var n := NameEnd(s[1..]);
      if n == 0 then None
      else
        var ps := ReadParams(s[1 + n..]);
        if ps == None then None
        else
          var more := ReadBlocks(ps.value.1);
          if more == None then None else Some([Block(s[1..1 + n], ps.value.0)] + more.value)
  }

  // ----- reading back what was printed

  predicate Clean(s: string) { forall i :: 0 <= i < |s| ==> !Stop(s[i]) }

  lemma {:induction false} KeyTextClean(s: string)
    ensures Clean(KeyText(s)) && (s != "" ==> KeyText(s) != "")
  {
    if s != "" {
      KeyTextClean(s[..|s| - 1]);
      HexClean(s[|s| - 1] as int / 16);
      HexClean(s[|s| - 1] as int);
    }
  }

  lemma HexClean(d: nat)
    ensures HexDigit(d) != '%' && !Stop(HexDigit(d))
  {
    var k := d % 16;
    assert HEX[k] in HEX;
  }

  lemma CleanEnd(k: string, rest: string)
    requires Clean(k) && rest != "" && Stop(rest[0])
    ensures NameEnd(k + rest) == |k|
  {
    var s := k + rest;
    assert s[|k|] == rest[0];
    assert forall i :: 0 <= i < |k| ==> s[i] == k[i];
  }

  lemma {:induction false} ValueFront(v: string)
    requires v != ""
    ensures ValueText(v) == ValueByte(v[0]) + ValueText(v[1..])
  {
    hide ValueByte;
    if |v| == 1 {
      assert v[..0] == "" && v[1..] == "";
    } else {
      var front := v[..|v| - 1];
      ValueFront(front);
      assert front[1..] == v[1..][..|v| - 2];
      assert v[1..][|v| - 2] == v[|v| - 1];
      assert ValueText(v) == ValueByte(v[0]) + (ValueText(front[1..]) + ValueByte(v[|v| - 1]));
    }
  }

  lemma ByteBack(c: char, tail: string)
    requires ReadValue(tail).Some?
    ensures ReadValue(ValueByte(c) + tail) == Some(([c] + ReadValue(tail).value.0, ReadValue(tail).value.1))
  {
    var s := ValueByte(c) + tail;
    if c in {'"', '\\', ']'} {
      assert s[2..] == tail;
    } else {
      assert s[1..] == tail;
    }
  }

  lemma {:induction false} ValueBack(v: string, rest: string)
    ensures ReadValue(ValueText(v) + "\"" + rest) == Some((v, rest))
  {
    if v == "" {
      var s := "\"" + rest;
      assert ValueText(v) + "\"" + rest == s;
      assert s[1..] == rest;
    } else {
      hide ReadValue, ValueByte, ValueText;
      ValueFront(v);
      ValueBack(v[1..], rest);
      var tail := ValueText(v[1..]) + "\"" + rest;
      assert ValueText(v) + "\"" + rest == ValueByte(v[0]) + tail;
      ByteBack(v[0], tail);
      assert [v[0]] + v[1..] == v;
    }
  }

  /** What a reader finds: names as they were escaped, values as they were. */
  function Seen(p: Param): Param { Param(KeyText(p.name), p.value) }

  function AllSeen(ps: seq<Param>): seq<Param> { if ps == [] then [] else [Seen(ps[0])] + AllSeen(ps[1..]) }

  function BlocksSeen(bs: seq<Block>): seq<Block> {
    if bs == [] then [] else [Block(KeyText(bs[0].id), AllSeen(bs[0].params))] + BlocksSeen(bs[1..])
  }

  predicate Named(b: Block) { b.id != "" && forall i :: 0 <= i < |b.params| ==> b.params[i].name != "" }

  lemma {:induction false} ParamsBack(ps: seq<Param>, rest: string)
    requires forall i :: 0 <= i < |ps| ==> ps[i].name != ""
    ensures ReadParams(ParamsText(ps) + "]" + rest) == Some((AllSeen(ps), rest))
  {
    var s := ParamsText(ps) + "]" + rest;
    if ps == [] {
      assert s == "]" + rest;
      assert s[1..] == rest;
    } else {
      hide ParamText, ReadParams, Seen;
      var tail := ParamsText(ps[1..]) + "]" + rest;
      assert s == ParamText(ps[0]) + tail;
      ParamsBack(ps[1..], rest);
      ParamBack(ps[0], tail);
    }
  }

  lemma ParamBack(p: Param, tail: string)
    requires p.name != "" && ReadParams(tail).Some?
    ensures ReadParams(ParamText(p) + tail) == Some(([Seen(p)] + ReadParams(tail).value.0, ReadParams(tail).value.1))
  {
    hide KeyText, ValueText, ReadValue;
    var s := ParamText(p) + tail;
    var k := KeyText(p.name);
    var body := ValueText(p.value) + "\"" + tail;
    KeyTextClean(p.name);
    assert s[1..] == k + ("=\"" + body);
    CleanEnd(k, "=\"" + body);
    assert s[1..1 + |k|] == k;
    assert s[1 + |k|..] == "=\"" + body;
    assert ("=\"" + body)[2..] == body;
    ValueBack(p.value, tail);
  }

  lemma BlockBack(b: Block, rest: string)
    requires Named(b) && ReadBlocks(rest).Some?
    ensures ReadBlocks(OpenText(b) + "]" + rest) ==
            Some([Block(KeyText(b.id), AllSeen(b.params))] + ReadBlocks(rest).value)
  {
    hide KeyText, ParamsText, ReadParams, AllSeen;
    var s := OpenText(b) + "]" + rest;
    var k := KeyText(b.id);
    var after := ParamsText(b.params) + "]" + rest;
    KeyTextClean(b.id);
    ParamsBack(b.params, rest);
    assert s[1..] == k + after;
    ParamsStop(b.params);
    CleanEnd(k, after);
    assert s[1..1 + |k|] == k && s[1 + |k|..] == after;
  }

  lemma {:induction false} BlocksBack(bs: seq<Block>)
    requires forall i :: 0 <= i < |bs| ==> Named(bs[i])
    ensures ReadBlocks(BlocksText(bs)) == Some(BlocksSeen(bs))
  {
    if bs != [] {
      hide OpenText, KeyText, AllSeen, ReadBlocks, Named;
      BlocksBack(bs[1..]);
      BlockBack(bs[0], BlocksText(bs[1..]));
    }
  }

  lemma ParamsStop(ps: seq<Param>)
    ensures if ps == [] then ParamsText(ps) == "" else ParamsText(ps) != "" && ParamsText(ps)[0] == ' '
  {
  }

  // ----- blocks of a message

  function EntriesOf(b: Block, n: nat): seq<Entry>
    requires n <= |b.params|
  {
    if n == 0 then [] else EntriesOf(b, n - 1) + [Entry(b.id, b.params[n - 1].name, b.params[n - 1].value)]
  }

  function Flat(bs: seq<Block>): seq<Entry> {
    if bs == [] then [] else Flat(bs[..|bs| - 1]) + EntriesOf(bs[|bs| - 1], |bs[|bs| - 1].params|)
  }

  lemma {:induction false} EntriesMore(b: Block, p: Param, n: nat)
    requires n <= |b.params|
    ensures EntriesOf(b.(params := b.params + [p]), n) == EntriesOf(b, n)
  {
    if n > 0 {
      EntriesMore(b, p, n - 1);
    }
  }

  predicate AllParams(es: seq<Entry>) { forall i :: 0 <= i < |es| ==> es[i].id != "" && es[i].param != "" }

  lemma FlatLast(front: seq<Block>, b: Block)
    ensures Flat(front + [b]) == Flat(front) + EntriesOf(b, |b.params|)
  {
    hide EntriesOf;
    assert (front + [b])[..|front|] == front;
  }

  /** An entry put into the last block comes last. */
  lemma {:induction false} FlatExtended(g: seq<Block>, e: Entry)
    requires g != [] && e.param != "" && g[|g| - 1].id == e.id
    ensures Flat(Extended(g, e)) == Flat(g) + [e]
  {
    hide Flat;
    var front, l, p := g[..|g| - 1], g[|g| - 1], Param(e.param, e.value);
    var more := l.(params := l.params + [p]);
    EntriesMore(l, p, |l.params|);
    assert EntriesOf(more, |l.params| + 1) == EntriesOf(l, |l.params|) + [e];
    assert g == front + [l];
    FlatLast(front, l);
    FlatLast(front, more);
  }

  lemma FlatOpened(h: seq<Block>, id: string)
    ensures Flat(h + [Block(id, [])]) == Flat(h)
  {
    hide Flat;
    FlatLast(h, Block(id, []));
    assert EntriesOf(Block(id, []), 0) == [];
  }

  /** Grouping loses nothing and changes no order. */
  lemma {:induction false} GroupFlat(es: seq<Entry>)
    requires AllParams(es)
    ensures Flat(Group(es)) == es
  {
    if es != [] {
      var front, e := es[..|es| - 1], es[|es| - 1];
      GroupFlat(front);
      GroupFlatStep(es, front, e);
    }
  }

  lemma GroupFlatStep(es: seq<Entry>, front: seq<Entry>, e: Entry)
    requires es == front + [e] && e.param != "" && Flat(Group(front)) == front
    ensures Flat(Group(es)) == es
  {
    hide Flat, Extended, Group;
    assert es[..|es| - 1] == front;
    Joins(es);
    var h := Group(front);
    if LastId(h) == Some(e.id) {
      FlatExtended(h, e);
    } else {
      FlatOpened(h, e.id);
      FlatExtended(h + [Block(e.id, [])], e);
    }
  }

  lemma {:induction false} GroupNamed(es: seq<Entry>)
    requires AllParams(es)
    ensures forall i :: 0 <= i < |Group(es)| ==> Named(Group(es)[i])
  {
    if es != [] {
      GroupNamed(es[..|es| - 1]);
      var h := Group(es[..|es| - 1]);
      assert h != [] ==> Named(h[|h| - 1]);
    }
  }

  predicate Together(es: seq<Entry>) {
    forall i, j, k :: 0 <= i < j < k < |es| && es[i].id == es[k].id ==> es[j].id == es[i].id
  }

  predicate DistinctIds(bs: seq<Block>) { forall i, j :: 0 <= i < j < |bs| ==> bs[i].id != bs[j].id }

  /** The ids of the blocks, in order. */
  function Ids(bs: seq<Block>): seq<string> { seq(|bs|, i requires 0 <= i < |bs| => bs[i].id) }

  lemma ExtendedIds(g: seq<Block>, e: Entry)
    requires g != []
    ensures Ids(Extended(g, e)) == Ids(g)
  {
  }

  /** A block is opened only for an id that some entry has. */
  lemma {:induction false} GroupIds(es: seq<Entry>, i: nat) returns (j: nat)
    requires i < |Group(es)|
    ensures j < |es| && es[j].id == Group(es)[i].id
  {
    hide Extended;
    var front := es[..|es| - 1];
    var e := es[|es| - 1];
    var h := Group(front);
    Joins(es);
    var g := if LastId(h) == Some(e.id) then h else h + [Block(e.id, [])];
    ExtendedIds(g, e);
    assert Ids(Group(es))[i] == g[i].id;
    if i < |h| {
      j := GroupIds(front, i);
    } else {
      j := |es| - 1;
    }
  }

  /** Entries that stand together give every id one block. */
  lemma {:induction false} GroupDistinct(es: seq<Entry>)
    requires Together(es)
    ensures DistinctIds(Group(es))
  {
    if es != [] {
      hide Extended, Group;
      var front := es[..|es| - 1];
      var e := es[|es| - 1];
      GroupDistinct(front);
      var h := Group(front);
      Joins(es);
      var g := if LastId(h) == Some(e.id) then h else h + [Block(e.id, [])];
      if LastId(h) != Some(e.id) {
        NewId(es, h);
      }
      ExtendedIds(g, e);
      assert DistinctIds(g);
      assert forall i :: 0 <= i < |g| ==> Ids(Group(es))[i] == g[i].id;
    }
  }

  /** An id other than the last one has no block yet. */
  lemma NewId(es: seq<Entry>, h: seq<Block>)
    requires es != [] && Together(es) && h == Group(es[..|es| - 1]) && LastId(h) != Some(es[|es| - 1].id)
    ensures forall i :: 0 <= i < |h| ==> h[i].id != es[|es| - 1].id
  {
    hide Group;
    var front := es[..|es| - 1];
    var e := es[|es| - 1];
    forall i | 0 <= i < |h|
      ensures h[i].id != e.id
    {
      var j := GroupIds(front, i);
      Joins(front);
      assert es[j] == front[j] && es[|es| - 2] == front[|front| - 1];
    }
  }

  // ----- the names a reader finds

  function DigitValue(c: char): nat {
    if '0' <= c <= '9' then c as int - '0' as int else if 'A' <= c <= 'F' then c as int - 'A' as int + 10 else 0
  }

  /** %XX back to the byte. */
  function Unescaped(t: string): string
    decreases |t|
  {
    if t == "" then ""
    else if t[0] == '%' && |t| >= 3
    then [((DigitValue(t[1]) * 16 + DigitValue(t[2])) % 256) as char] + Unescaped(t[3..])
    else [t[0]] + Unescaped(t[1..])
  }

  predicate Bytes(s: string) { forall i :: 0 <= i < |s| ==> s[i] as int < 256 }

  lemma {:induction false} KeyFront(s: string)
    requires s != ""
    ensures KeyText(s) == KeyByte(s[0]) + KeyText(s[1..])
  {
    hide KeyByte;
    if |s| == 1 {
      assert s[..0] == "" && s[1..] == "";
    } else {
      var front := s[..|s| - 1];
      KeyFront(front);
      assert front[1..] == s[1..][..|s| - 2];
      assert KeyText(s) == KeyByte(s[0]) + (KeyText(front[1..]) + KeyByte(s[|s| - 1]));
    }
  }

  lemma DigitBack(d: nat)
    ensures DigitValue(HexDigit(d)) == d % 16
  {
  }

  lemma ByteUnescaped(c: char, tail: string)
    requires c as int < 256 && c != '%'
    ensures Unescaped(KeyByte(c) + tail) == [c] + Unescaped(tail)
  {
    hide HexDigit, DigitValue;
    var s := KeyByte(c) + tail;
    if Special(c) {
      DigitBack(c as int / 16);
      DigitBack(c as int);
      assert s[3..] == tail;
    } else {
      assert s[1..] == tail;
    }
  }

  /** Names without '%' can be recovered from their escaped form, so they stay distinct. */
  lemma {:induction false} KeyUnescaped(s: string)
    requires Bytes(s) && '%' !in s
    ensures Unescaped(KeyText(s)) == s
  {
    if s != "" {
      KeyFront(s);
      KeyUnescaped(s[1..]);
      ByteUnescaped(s[0], KeyText(s[1..]));
      assert [s[0]] + s[1..] == s;
    }
  }

  // ----- names that are printed alike

  predicate Hex(c: char) { '0' <= c <= '9' || 'A' <= c <= 'F' }

  /** The name begins with %XX where XX stands for a byte that is printed that way. */
  predicate Coded(s: string) {
    |s| >= 3 && s[0] == '%' && Hex(s[1]) && Hex(s[2]) && Special((DigitValue(s[1]) * 16 + DigitValue(s[2])) as char)
  }

  /** The name with those %XX replaced by the byte. */
  function Canon(s: string): string
    decreases |s|
  {
    if s == "" then ""
    else if Coded(s) then [(DigitValue(s[1]) * 16 + DigitValue(s[2])) as char] + Canon(s[3..])
    else [s[0]] + Canon(s[1..])
  }

  lemma DigitAgain(c: char)
    requires Hex(c)
    ensures HexDigit(DigitValue(c)) == c && DigitValue(c) < 16 && !Special(c)
  {
  }

  lemma HexIsHex(d: nat)
    ensures Hex(HexDigit(d)) && DigitValue(HexDigit(d)) == d % 16
  {
  }

  /** A coded beginning is printed as it is, and like the byte it stands for. */
  lemma CodedText(s: string)
    requires Coded(s)
    ensures var v := (DigitValue(s[1]) * 16 + DigitValue(s[2])) as char;
            KeyByte(v) == s[..3] && KeyText(s) == s[..3] + KeyText(s[3..])
  {
    hide HexDigit, DigitValue, Hex, KeyText;
    DigitAgain(s[1]);
    DigitAgain(s[2]);
    var d1, d2 := DigitValue(s[1]), DigitValue(s[2]);
    assert (d1 * 16 + d2) / 16 == d1 && (d1 * 16 + d2) % 16 == d2;
    HexRest(d1 * 16 + d2, d2);
    KeyFront(s);
    KeyFront(s[1..]);
    KeyFront(s[2..]);
    assert s[1..][1..] == s[2..] && s[2..][1..] == s[3..];
    assert KeyText(s) == [s[0]] + ([s[1]] + ([s[2]] + KeyText(s[3..])));
    assert s[..3] == [s[0], s[1], s[2]];
  }

  lemma HexRest(n: nat, d: nat)
    requires n % 16 == d % 16
    ensures HexDigit(n) == HexDigit(d)
  {
  }

  /** Replacing %XX by the byte does not show. */
  lemma {:induction false} CanonText(s: string)
    ensures KeyText(Canon(s)) == KeyText(s)
    decreases |s|
  {
    hide KeyByte, KeyText, DigitValue, Hex;
    if s != "" {
      KeyFront(Canon(s));
      KeyFront(s);
      if Coded(s) {
        CodedText(s);
        CanonText(s[3..]);
        assert Canon(s)[1..] == Canon(s[3..]);
      } else {
        CanonText(s[1..]);
        assert Canon(s)[1..] == Canon(s[1..]);
      }
    }
  }

  /** An escaped byte is coded, and nothing else becomes coded by printing. */
  lemma SpecialCoded(c: char, tail: string)
    requires c as int < 256 && Special(c)
    ensures var s := KeyByte(c) + tail;
            Coded(s) && (DigitValue(s[1]) * 16 + DigitValue(s[2])) as char == c && s[3..] == tail
  {
    hide HexDigit, DigitValue, Hex;
    HexIsHex(c as int / 16);
    HexIsHex(c as int);
  }

  lemma PlainCoded(s: string)
    requires s != "" && Bytes(s) && !Special(s[0]) && !Coded(s)
    ensures KeyText(s) == [s[0]] + KeyText(s[1..]) && !Coded(KeyText(s))
  {
    hide KeyText, DigitValue;
    KeyFront(s);
    assert KeyText(s)[0] == s[0];
    if s[0] == '%' && |s| >= 2 {
      KeyFront(s[1..]);
      if !Special(s[1]) && |s| >= 3 {
        KeyFront(s[1..][1..]);
      }
      NoKey();
      assert |s| == 2 && !Special(s[1]) ==> s[1..][1..] == "";
    }
    NoKey();
    assert |s| == 1 ==> s[1..] == "";
  }

  lemma NoKey()
    ensures KeyText("") == ""
  {
  }

  lemma {:induction false} TextCanon(s: string)
    requires Bytes(s)
    ensures Canon(KeyText(s)) == Canon(s)
    decreases |s|
  {
    hide KeyText, KeyByte, DigitValue, Hex;
    if s == "" {
      NoKey();
    } else if Coded(s) {
      CodedText(s);
      TextCanon(s[3..]);
      SameStart(s, KeyText(s));
      assert KeyText(s)[3..] == KeyText(s[3..]);
    } else if Special(s[0]) {
      KeyFront(s);
      SpecialCoded(s[0], KeyText(s[1..]));
      TextCanon(s[1..]);
    } else {
      PlainCoded(s);
      TextCanon(s[1..]);
      assert KeyText(s)[1..] == KeyText(s[1..]);
    }
  }

  lemma SameStart(s: string, t: string)
    requires Coded(s) && |t| >= 3 && t[..3] == s[..3]
    ensures Coded(t) && t[1] == s[1] && t[2] == s[2]
  {
    assert t[0] == t[..3][0] && t[1] == t[..3][1] && t[2] == t[..3][2];
    assert s[0] == s[..3][0] && s[1] == s[..3][1] && s[2] == s[..3][2];
  }

  /** Two names are printed alike if and only if they differ only in bytes written as the
      %XX that the byte is printed as. */
  lemma CollideIff(a: string, b: string)
    requires Bytes(a) && Bytes(b)
    ensures KeyText(a) == KeyText(b) <==> Canon(a) == Canon(b)
  {
    hide KeyText, Canon;
    TextCanon(a);
    TextCanon(b);
    CanonText(a);
    CanonText(b);
  }

  lemma {:induction false} NoPercent(s: string)
    requires '%' !in s
    ensures Canon(s) == s
  {
    if s != "" {
      NoPercent(s[1..]);
      assert [s[0]] + s[1..] == s;
    }
  }

  /** SD-NAME: 1 to 32 printable characters except '=', ' ', ']' and '"'. */
  predicate SdName(s: string) {
    1 <= |s| <= 32 && forall i :: 0 <= i < |s| ==> 33 <= s[i] as int <= 126 && !Stop(s[i])
  }

  predicate Control(c: char) { c as int < 32 || c as int == 127 }

  /** The printed name is an SD-NAME exactly when it is neither empty nor too long and
      holds no control character, which is printed as it is. */
  lemma KeyIsSdName(s: string)
    ensures SdName(KeyText(s)) <==> 1 <= |KeyText(s)| <= 32 && forall i :: 0 <= i < |s| ==> !Control(s[i])
  {
    KeyTextClean(s);
    Printable(s);
  }

  lemma {:induction false} Printable(s: string)
    ensures (forall i :: 0 <= i < |KeyText(s)| ==> 33 <= KeyText(s)[i] as int <= 126) <==>
            forall i :: 0 <= i < |s| ==> !Control(s[i])
  {
    if s != "" {
      var front := s[..|s| - 1];
      var c := s[|s| - 1];
      Printable(front);
      BytePrintable(c);
      var a, b := KeyText(front), KeyByte(c);
      assert KeyText(s) == a + b;
      assert (forall i :: 0 <= i < |s| ==> !Control(s[i])) <==>
               (forall i :: 0 <= i < |front| ==> !Control(front[i])) && !Control(c) by {
        assert forall i :: 0 <= i < |front| ==> s[i] == front[i];
      }
      assert (forall i :: 0 <= i < |a + b| ==> 33 <= (a + b)[i] as int <= 126) <==>
             (forall i :: 0 <= i < |a| ==> 33 <= a[i] as int <= 126)
                 && (forall i :: 0 <= i < |b| ==> 33 <= b[i] as int <= 126) by {
        assert forall i :: 0 <= i < |a| ==> (a + b)[i] == a[i];
        assert forall i :: 0 <= i < |b| ==> (a + b)[|a| + i] == b[i];
      }
    }
  }

  lemma BytePrintable(c: char)
    ensures (forall i :: 0 <= i < |KeyByte(c)| ==> 33 <= KeyByte(c)[i] as int <= 126) <==> !Control(c)
  {
    HexPrintable(c as int / 16);
    HexPrintable(c as int);
    if !Special(c) {
      assert KeyByte(c)[0] == c;
    }
  }

  lemma HexPrintable(d: nat)
    ensures 33 <= HexDigit(d) as int <= 126
  {
    var k := d % 16;
    assert HEX[k] in HEX;
  }

  // ----- all together

  /** The array of a message; `known` tells of which names the length of the id is kept. */
  function Elements(ns: seq<Name>, known: Name -> bool, values: Name -> string): seq<Element> {
    seq(|ns|, i requires 0 <= i < |ns| => Element(Text(ns[i]), if known(ns[i]) then |ns[i].id| else 0, values(ns[i])))
  }

  function Entries(ns: seq<Name>, values: Name -> string): seq<Entry>
    requires forall i :: 0 <= i < |ns| ==> ValidName(ns[i])
  {
    seq(|ns|, i requires 0 <= i < |ns| => assert ValidName(ns[i]); Entry(ns[i].id, ns[i].param, values(ns[i])))
  }

  lemma SplitElements(ns: seq<Name>, known: Name -> bool, values: Name -> string)
    requires forall i :: 0 <= i < |ns| ==> ValidName(ns[i])
    ensures forall i :: 0 <= i < |ns| ==> WellNamed(Elements(ns, known, values)[i])
    ensures Split(Elements(ns, known, values)) == Entries(ns, values)
  {
    hide Text, EntryOf, WellNamed;
    forall i | 0 <= i < |ns|
      ensures WellNamed(Elements(ns, known, values)[i])
      ensures EntryOf(Elements(ns, known, values)[i]) == Entries(ns, values)[i]
    {
      NameSplit(ns[i], known(ns[i]), values(ns[i]));
    }
  }

  lemma {:induction false} SeenIds(bs: seq<Block>)
    ensures |BlocksSeen(bs)| == |bs| && forall i :: 0 <= i < |bs| ==> BlocksSeen(bs)[i].id == KeyText(bs[i].id)
  {
    hide KeyText;
    if bs != [] {
      SeenIds(bs[1..]);
    }
  }

  /** No two ids differ only in bytes written as %XX. */
  predicate Tellable(ns: seq<Name>) {
    forall i, j :: 0 <= i < |ns| && 0 <= j < |ns| && ns[i].id != ns[j].id ==> Canon(ns[i].id) != Canon(ns[j].id)
  }

  lemma {:induction false} BlockOf(es: seq<Entry>, i: nat) returns (b: nat)
    requires i < |es|
    ensures b < |Group(es)| && Group(es)[b].id == es[i].id
  {
    hide Extended, Group;
    var front := es[..|es| - 1];
    var e := es[|es| - 1];
    var h := Group(front);
    Joins(es);
    var g := if LastId(h) == Some(e.id) then h else h + [Block(e.id, [])];
    ExtendedIds(g, e);
    if i < |front| {
      b := BlockOf(front, i);
      assert g[b].id == h[b].id;
    } else {
      b := |g| - 1;
    }
    assert Ids(Group(es))[b] == g[b].id;
  }

  /** A reader finds every id once if and only if no two ids are printed alike. */
  lemma SeenDistinct(es: seq<Entry>, ns: seq<Name>)
    requires Together(es) && |es| == |ns| && forall i :: 0 <= i < |ns| ==> es[i].id == ns[i].id && Bytes(ns[i].id)
    ensures DistinctIds(BlocksSeen(Group(es))) <==> Tellable(ns)
  {
    hide Group, KeyText, Canon, BlocksSeen, Together;
    var bs := Group(es);
    var seen := BlocksSeen(bs);
    SeenIds(bs);
    GroupDistinct(es);
    if Tellable(ns) {
      forall i, j | 0 <= i < j < |bs|
        ensures seen[i].id != seen[j].id
      {
        var k := GroupIds(es, i);
        var l := GroupIds(es, j);
        CollideIff(ns[k].id, ns[l].id);
      }
    }
    if DistinctIds(seen) {
      forall k, l | 0 <= k < |ns| && 0 <= l < |ns| && ns[k].id != ns[l].id
        ensures Canon(ns[k].id) != Canon(ns[l].id)
      {
        var i := BlockOf(es, k);
        var j := BlockOf(es, l);
        CollideIff(ns[k].id, ns[l].id);
      }
    }
  }

  /** The printed structured data of a message whose elements stand together reads back as
      its blocks: one for each id, the parameters in order, values exact, names escaped.
      The reader finds each id once if and only if no two ids are printed alike. */
  lemma PrintedReadsBack(ns: seq<Name>, known: Name -> bool, values: Name -> string)
    requires Contiguous(ns) && forall i :: 0 <= i < |ns| ==> ValidName(ns[i])
    ensures forall i :: 0 <= i < |ns| ==> WellNamed(Elements(ns, known, values)[i])
    ensures var bs := Group(Split(Elements(ns, known, values)));
            && ReadBlocks(BlocksText(bs)) == Some(BlocksSeen(bs))
            && DistinctIds(bs) && Flat(bs) == Entries(ns, values)
            && ((forall i :: 0 <= i < |ns| ==> Bytes(ns[i].id)) ==> (DistinctIds(BlocksSeen(bs)) <==> Tellable(ns)))
  {
    hide BlocksSeen, Group, Bytes, Tellable;
    SplitElements(ns, known, values);
    var es := Entries(ns, values);
    GroupFlat(es);
    GroupNamed(es);
    GroupDistinct(es);
    BlocksBack(Group(es));
    if forall i :: 0 <= i < |ns| ==> Bytes(ns[i].id) {
      SeenDistinct(es, ns);
    }
  }

  /** Ids without '%' can be told apart. */
  lemma NoPercentTellable(ns: seq<Name>)
    requires forall i :: 0 <= i < |ns| ==> '%' !in ns[i].id
    ensures Tellable(ns)
  {
    hide Canon;
    forall i | 0 <= i < |ns|
      ensures Canon(ns[i].id) == ns[i].id
    {
      NoPercent(ns[i].id);
    }
  }

  /** The ids "a=" and "a%3D", of which neither begins the other. */
  function Alike(): seq<Name> { [Name("a=", "p"), Name("a%3D", "q")] }

  lemma AlikeFree()
    ensures Contiguous(Alike()) && AllFree(Alike()) && !Tellable(Alike())
  {
    var a, b := "a=", "a%3D";
    assert a[1] != b[1];
    assert a != b && !(a <= b) && !(b <= a);
    assert ValidName(Alike()[0]) && ValidName(Alike()[1]);
    NoPercent(a);
    assert "%3D"[3..] == "" && b[1..] == "%3D";
    assert Canon("%3D") == "=";
    assert Canon(b) == "a" + "=";
  }

  /** Their printed text has two blocks a%3D. */
  lemma PrintedTwice(known: Name -> bool, values: Name -> string)
    ensures Contiguous(Alike()) && AllFree(Alike())
    ensures forall i :: 0 <= i < |Alike()| ==> WellNamed(Elements(Alike(), known, values)[i])
    ensures var bs := Group(Split(Elements(Alike(), known, values)));
            ReadBlocks(BlocksText(bs)) == Some(BlocksSeen(bs)) && !DistinctIds(BlocksSeen(bs))
  {
    hide BlocksSeen, Group, Canon, Split, Elements, BlocksText, ReadBlocks, Flat, Entries, Tellable, Contiguous;
    AlikeFree();
    PrintedReadsBack(Alike(), known, values);
  }
}
