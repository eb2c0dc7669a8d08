/** The structural guard on external responses: a byte scanner that bounds nesting and string
    length before anything is parsed. On every rendering of a JSON value it accepts exactly
    when the value is within the bounds, however the bytes are cut into chunks. */
module JsonGuard {
  import opened Basics

  newtype byte = x: int | 0 <= x < 256

  const QUOTE: byte := 0x22
  const BACKSLASH: byte := 0x5C
  const OPENERS: set<byte> := {0x7B, 0x5B}
  const CLOSERS: set<byte> := {0x7D, 0x5D}

  const MAX_DEPTH := 64
  const MAX_STRING := 1024 * 1024

  // ------------------------------------------------------------------- the scanner

  datatype State = State(depth: nat, inString: bool, escaped: bool, stringBytes: nat)

  function Outside(depth: nat): State { State(depth, false, false, 0) }

  function Inside(depth: nat, count: nat): State { State(depth, true, false, count) }

  /** One byte; None when the guard rejects. */
  function Step(s: State, b: byte): Option<State> {
    if s.inString then
      var s' := s.(stringBytes := s.stringBytes + 1);
      if s'.stringBytes > MAX_STRING then None
      else if s.escaped then Some(s'.(escaped := false))
      else if b == BACKSLASH then Some(s'.(escaped := true))
      else if b == QUOTE then Some(s'.(inString := false, stringBytes := 0))
      else Some(s')
    else if b == QUOTE then Some(s.(inString := true, stringBytes := 0))
    else if b in OPENERS then if s.depth + 1 > MAX_DEPTH then None else Some(s.(depth := s.depth + 1))
    else if b in CLOSERS then Some(s.(depth := if s.depth == 0 then 0 else s.depth - 1))
    else Some(s)
  }

  function Scan(s: State, bytes: seq<byte>): Option<State>
    decreases |bytes|
  {
    if bytes == [] then Some(s)
    else
      var next := Step(s, bytes[0]);
      if next.None? then None else Scan(next.value, bytes[1..])
  }

  function Then(o: Option<State>, bytes: seq<byte>): Option<State> {
    if o.None? then None else Scan(o.value, bytes)
  }

  /** However the bytes are cut, the verdict and the state are those of the whole. */
  lemma {:induction false} ScanConcat(s: State, a: seq<byte>, b: seq<byte>)
    ensures Scan(s, a + b) == Then(Scan(s, a), b)
    decreases |a|
  {
    if a == [] {
      assert a + b == b;
    } else {
      assert (a + b)[1..] == a[1..] + b;
      var next := Step(s, a[0]);
      if next.Some? { ScanConcat(next.value, a[1..], b); }
    }
  }

  class JsonPayloadLimits {
    var depth: nat
    var inString: bool
    var escaped: bool
    var stringBytes: nat

    function View(): State reads this { State(depth, inString, escaped, stringBytes) }

    constructor ()
      ensures View() == Outside(0)
    {
      depth, inString, escaped, stringBytes := 0, false, false, 0;
    }

    /** Observes a chunk; false stands for the protocol error. */
    method Observe(chunk: seq<byte>) returns (ok: bool)
      modifies this
      ensures ok <==> Scan(old(View()), chunk).Some?
      ensures ok ==> View() == Scan(old(View()), chunk).value
    {
      assert chunk[0..] == chunk;
      for i := 0 to |chunk|
        invariant Scan(old(View()), chunk) == Scan(View(), chunk[i..])
      {
        var b := chunk[i];
        assert chunk[i..][1..] == chunk[i + 1..];
        if inString {
          stringBytes := stringBytes + 1;
          if stringBytes > MAX_STRING { return false; }
          if escaped {
            escaped := false;
          } else if b == BACKSLASH {
            escaped := true;
          } else if b == QUOTE {
            inString, stringBytes := false, 0;
          }
          continue;
        }
        if b == QUOTE {
          inString, stringBytes := true, 0;
        } else if b in OPENERS {
          if depth + 1 > MAX_DEPTH { return false; }
          depth := depth + 1;
        } else if b in CLOSERS {
          depth := if depth - 1 > 0 then depth - 1 else 0;
        }
      }
      assert chunk[|chunk|..] == [];
      ok := true;
    }
  }

  // -------------------------------------------------------------- JSON, as rendered

  /** A character of a string body as section 7 of RFC 8259 lets it be written. */
  datatype Unit = Plain(b: byte) | Short(c: byte) | Unicode(digits: seq<byte>)

  predicate HexDigit(b: byte) { 0x30 <= b <= 0x39 || 0x41 <= b <= 0x46 || 0x61 <= b <= 0x66 }

  predicate UnitOk(u: Unit) {
    match u
    case Plain(b) => 0x20 <= b && b != QUOTE && b != BACKSLASH
    case Short(c) => c in {QUOTE, BACKSLASH, 0x2F, 0x62, 0x66, 0x6E, 0x72, 0x74}
    case Unicode(digits) => |digits| == 4 && forall d <- digits :: HexDigit(d)
  }

  function UnitBytes(u: Unit): seq<byte> {
    match u
    case Plain(b) => [b]
    case Short(c) => [BACKSLASH, c]
    case Unicode(digits) => [BACKSLASH, 0x75] + digits
  }

  predicate BodyOk(body: seq<Unit>) { forall u <- body :: UnitOk(u) }

  function BodyBytes(body: seq<Unit>): seq<byte> {
    if body == [] then [] else UnitBytes(body[0]) + BodyBytes(body[1..])
  }

  function Quoted(body: seq<Unit>): seq<byte> { [QUOTE] + (BodyBytes(body) + [QUOTE]) }

  /** Bytes that mean nothing to the guard outside strings: literals, numbers, white space,
      commas and colons. */
  predicate Quiet(bytes: seq<byte>) { forall b <- bytes :: b != QUOTE && b !in OPENERS && b !in CLOSERS }

  predicate White(bytes: seq<byte>) { forall b <- bytes :: b in {0x20, 0x09, 0x0A, 0x0D} }

  /** A JSON text: a value with the white space its author put around every part. */
  datatype Json =
    | Atom(raw: seq<byte>)
    | Str(body: seq<Unit>)
    | Array(blank: seq<byte>, items: Items)
    | Object(blank: seq<byte>, members: Members)

  datatype Items = NoItem | Item(before: seq<byte>, value: Json, after: seq<byte>, rest: Items)

  datatype Members =
    | NoMember
    | Member(before: seq<byte>, key: seq<Unit>, colon: seq<byte>, value: Json, after: seq<byte>, rest: Members)

  predicate WellFormed(v: Json) {
    match v
    case Atom(raw) => Quiet(raw)
    case Str(body) => BodyOk(body)
    case Array(blank, items) => White(blank) && ItemsOk(items)
    case Object(blank, members) => White(blank) && MembersOk(members)
  }

  predicate ItemsOk(items: Items) {
    items.Item? ==> White(items.before) && WellFormed(items.value) && White(items.after) && ItemsOk(items.rest)
  }

  /** `colon` is the colon with the white space around it. */
  predicate MembersOk(members: Members) {
    members.Member? ==>
      && White(members.before) && BodyOk(members.key) && Quiet(members.colon)
      && WellFormed(members.value) && White(members.after) && MembersOk(members.rest)
  }

  function Render(v: Json): seq<byte> {
    match v
    case Atom(raw) => raw
    case Str(body) => Quoted(body)
    case Array(blank, items) => [0x5B] + (blank + (RenderItems(items) + [0x5D]))
    case Object(blank, members) => [0x7B] + (blank + (RenderMembers(members) + [0x7D]))
  }

  function RenderItems(items: Items): seq<byte> {
    match items
    case NoItem => []
    case Item(before, value, after, rest) =>
      before + (Render(value) + (after + ((if rest.NoItem? then [] else [0x2C]) + RenderItems(rest))))
  }

  function RenderMembers(members: Members): seq<byte> {
    match members
    case NoMember => []
    case Member(before, key, colon, value, after, rest) =>
      before + (Quoted(key) + (colon + (Render(value)
        + (after + ((if rest.NoMember? then [] else [0x2C]) + RenderMembers(rest))))))
  }

  /** How deep arrays and objects nest. */
  function Depth(v: Json): nat {
    match v
    case Atom(_) => 0
    case Str(_) => 0
    case Array(_, items) => 1 + ItemsDepth(items)
    case Object(_, members) => 1 + MembersDepth(members)
  }

  function Max(a: nat, b: nat): nat { if a < b then b else a }

  function ItemsDepth(items: Items): nat {
    if items.NoItem? then 0 else Max(Depth(items.value), ItemsDepth(items.rest))
  }

  function MembersDepth(members: Members): nat {
    if members.NoMember? then 0 else Max(Depth(members.value), MembersDepth(members.rest))
  }

  /** Every string body, keys included, fits with its closing quote. */
  predicate StringsFit(v: Json) {
    match v
    case Atom(_) => true
    case Str(body) => |BodyBytes(body)| + 1 <= MAX_STRING
    case Array(_, items) => ItemStringsFit(items)
    case Object(_, members) => MemberStringsFit(members)
  }

  predicate ItemStringsFit(items: Items) {
    items.Item? ==> StringsFit(items.value) && ItemStringsFit(items.rest)
  }

  predicate MemberStringsFit(members: Members) {
    members.Member? ==>
      |BodyBytes(members.key)| + 1 <= MAX_STRING && StringsFit(members.value) && MemberStringsFit(members.rest)
  }

  // ------------------------------------------------------------------- exactness

  lemma {:induction false} ScanQuiet(depth: nat, bytes: seq<byte>)
    requires Quiet(bytes)
    ensures Scan(Outside(depth), bytes) == Some(Outside(depth))
    decreases |bytes|
  {
    if bytes != [] {
      assert bytes[0] in bytes && forall b <- bytes[1..] :: b in bytes;
      ScanQuiet(depth, bytes[1..]);
    }
  }

  lemma WhiteIsQuiet(bytes: seq<byte>)
    requires White(bytes)
    ensures Quiet(bytes)
  {
  }

  /** Plain bytes inside a string are only counted. */
  lemma {:induction false} ScanPlain(depth: nat, count: nat, bytes: seq<byte>)
    requires count <= MAX_STRING && forall b <- bytes :: b != QUOTE && b != BACKSLASH
    ensures Scan(Inside(depth, count), bytes) ==
            if count + |bytes| <= MAX_STRING then Some(Inside(depth, count + |bytes|)) else None
    decreases |bytes|
  {
    if bytes != [] {
      assert bytes[0] in bytes && forall b <- bytes[1..] :: b in bytes;
      if count + 1 <= MAX_STRING { ScanPlain(depth, count + 1, bytes[1..]); }
    }
  }

  lemma ScanOne(s: State, b: byte)
    ensures Scan(s, [b]) == Step(s, b)
  {
    assert [b][1..] == [];
  }

  /** Whatever byte follows a backslash is only counted. */
  lemma ScanEscape(depth: nat, count: nat, c: byte)
    requires count <= MAX_STRING
    ensures Scan(Inside(depth, count), [BACKSLASH, c]) == if count + 2 <= MAX_STRING then Some(Inside(depth, count + 2)) else None
  {
    ScanConcat(Inside(depth, count), [BACKSLASH], [c]);
    assert [BACKSLASH] + [c] == [BACKSLASH, c];
    ScanOne(Inside(depth, count), BACKSLASH);
    if count + 1 <= MAX_STRING { ScanOne(Inside(depth, count + 1).(escaped := true), c); }
  }

  lemma ScanUnit(depth: nat, count: nat, u: Unit)
    requires count <= MAX_STRING && UnitOk(u)
    ensures Scan(Inside(depth, count), UnitBytes(u)) ==
            if count + |UnitBytes(u)| <= MAX_STRING then Some(Inside(depth, count + |UnitBytes(u)|)) else None
  {
    match u
    case Plain(b) => ScanPlain(depth, count, [b]);
    case Short(c) => ScanEscape(depth, count, c);
    case Unicode(digits) =>
      ScanEscape(depth, count, 0x75);
      ScanConcat(Inside(depth, count), [BACKSLASH, 0x75], digits);
      assert forall d <- digits :: HexDigit(d);
      if count + 2 <= MAX_STRING { ScanPlain(depth, count + 2, digits); }
  }

  lemma {:induction false} ScanBody(depth: nat, count: nat, body: seq<Unit>)
    requires count <= MAX_STRING && BodyOk(body)
    ensures Scan(Inside(depth, count), BodyBytes(body)) ==
            if count + |BodyBytes(body)| <= MAX_STRING then Some(Inside(depth, count + |BodyBytes(body)|)) else None
    decreases |body|
  {
    if body != [] {
      assert body[0] in body;
      ScanUnit(depth, count, body[0]);
      ScanConcat(Inside(depth, count), UnitBytes(body[0]), BodyBytes(body[1..]));
      if count + |UnitBytes(body[0])| <= MAX_STRING { ScanBody(depth, count + |UnitBytes(body[0])|, body[1..]); }
    }
  }

  /** A rendered string is accepted exactly when its raw body and closing quote fit. */
  lemma ScanQuoted(depth: nat, body: seq<Unit>)
    requires BodyOk(body)
    ensures Scan(Outside(depth), Quoted(body)) == if |BodyBytes(body)| + 1 <= MAX_STRING then Some(Outside(depth)) else None
  {
    var bytes := BodyBytes(body);
    ScanConcat(Outside(depth), [QUOTE], bytes + [QUOTE]);
    ScanOne(Outside(depth), QUOTE);
    ScanBody(depth, 0, body);
    ScanConcat(Inside(depth, 0), bytes, [QUOTE]);
    if |bytes| <= MAX_STRING { ScanOne(Inside(depth, |bytes|), QUOTE); }
  }

  /** The verdict a part of a text gets at a depth. */
  function Verdict(depth: nat, ok: bool): Option<State> { if ok then Some(Outside(depth)) else None }

  /** Scanning two parts that each end outside strings at the depth they started. */
  lemma Parts(depth: nat, a: seq<byte>, okA: bool, b: seq<byte>, okB: bool)
    requires Scan(Outside(depth), a) == Verdict(depth, okA) && Scan(Outside(depth), b) == Verdict(depth, okB)
    ensures Scan(Outside(depth), a + b) == Verdict(depth, okA && okB)
  {
    ScanConcat(Outside(depth), a, b);
  }

  /** An array or object: its opener counts one level, its closer gives it back. */
  lemma Nested(depth: nat, open: byte, inner: seq<byte>, close: byte, ok: bool)
    requires open in OPENERS && close in CLOSERS
    requires depth + 1 <= MAX_DEPTH ==> Scan(Outside(depth + 1), inner) == Verdict(depth + 1, ok)
    ensures Scan(Outside(depth), [open] + (inner + [close])) == Verdict(depth, depth + 1 <= MAX_DEPTH && ok)
  {
    ScanConcat(Outside(depth), [open], inner + [close]);
    ScanOne(Outside(depth), open);
    if depth + 1 <= MAX_DEPTH {
      ScanConcat(Outside(depth + 1), inner, [close]);
      ScanOne(Outside(depth + 1), close);
    }
  }

  /** The guard is exact: on every rendering of a value it accepts if and only if the nesting
      is within 64 levels and every raw string body with its closing quote is within 1 MiB,
      and then it is back at the depth it started from, outside any string. */
  lemma {:induction false} GuardIsExact(depth: nat, v: Json)
    requires WellFormed(v)
    requires depth <= MAX_DEPTH
    ensures Scan(Outside(depth), Render(v)) == Verdict(depth, depth + Depth(v) <= MAX_DEPTH && StringsFit(v))
    decreases v
  {
    hide Scan, Quiet, White, BodyOk;
    match v
    case Atom(raw) => ScanQuiet(depth, raw);
    case Str(body) => ScanQuoted(depth, body);
    case Array(blank, items) =>
      var inner, ok := RenderItems(items), depth + 1 + ItemsDepth(items) <= MAX_DEPTH && ItemStringsFit(items);
      if depth + 1 <= MAX_DEPTH {
        ItemsExact(depth + 1, items);
        Padded(depth + 1, blank, inner, ok);
      }
      Nested(depth, 0x5B, blank + inner, 0x5D, ok);
      assert blank + inner + [0x5D] == blank + (inner + [0x5D]);
    case Object(blank, members) =>
      var inner, ok := RenderMembers(members), depth + 1 + MembersDepth(members) <= MAX_DEPTH && MemberStringsFit(members);
      if depth + 1 <= MAX_DEPTH {
        MembersExact(depth + 1, members);
        Padded(depth + 1, blank, inner, ok);
      }
      Nested(depth, 0x7B, blank + inner, 0x7D, ok);
      assert blank + inner + [0x7D] == blank + (inner + [0x7D]);
  }

  lemma Padded(depth: nat, pad: seq<byte>, rest: seq<byte>, ok: bool)
    requires Quiet(pad) || White(pad)
    requires Scan(Outside(depth), rest) == Verdict(depth, ok)
    ensures Scan(Outside(depth), pad + rest) == Verdict(depth, ok)
  {
    if White(pad) { WhiteIsQuiet(pad); }
    ScanQuiet(depth, pad);
    Parts(depth, pad, true, rest, ok);
  }

  lemma EmptyScan(depth: nat)
    ensures Scan(Outside(depth), []) == Some(Outside(depth))
  {
  }

  lemma {:induction false} ItemsExact(depth: nat, items: Items)
    requires ItemsOk(items) && depth <= MAX_DEPTH
    ensures Scan(Outside(depth), RenderItems(items)) ==
            Verdict(depth, depth + ItemsDepth(items) <= MAX_DEPTH && ItemStringsFit(items))
    decreases items
  {
    match items
    case NoItem =>
    case Item(before, value, after, rest) =>
      var comma := if rest.NoItem? then [] else [0x2C];
      var okRest := depth + ItemsDepth(rest) <= MAX_DEPTH && ItemStringsFit(rest);
      var ok := depth + Depth(value) <= MAX_DEPTH && StringsFit(value);
      ItemsExact(depth, rest);
      Padded(depth, comma, RenderItems(rest), okRest);
      Padded(depth, after, comma + RenderItems(rest), okRest);
      GuardIsExact(depth, value);
      Parts(depth, Render(value), ok, after + (comma + RenderItems(rest)), okRest);
      Padded(depth, before, Render(value) + (after + (comma + RenderItems(rest))), ok && okRest);
  }

  lemma CommaIsQuiet()
    ensures Quiet([]) && Quiet([0x2C])
  {
  }

  lemma {:induction false} MembersExact(depth: nat, members: Members)
    requires MembersOk(members) && depth <= MAX_DEPTH
    ensures Scan(Outside(depth), RenderMembers(members)) ==
            Verdict(depth, depth + MembersDepth(members) <= MAX_DEPTH && MemberStringsFit(members))
    decreases members
  {
    hide Scan, Quiet, White, BodyOk;
    match members
    case NoMember => EmptyScan(depth);
    case Member(before, key, colon, value, after, rest) =>
      var comma := if rest.NoMember? then [] else [0x2C];
      var okRest := depth + MembersDepth(rest) <= MAX_DEPTH && MemberStringsFit(rest);
      var ok := depth + Depth(value) <= MAX_DEPTH && StringsFit(value);
      var okKey := |BodyBytes(key)| + 1 <= MAX_STRING;
      var tail := after + (comma + RenderMembers(rest));
      MembersExact(depth, rest);
      CommaIsQuiet();
      Padded(depth, comma, RenderMembers(rest), okRest);
      Padded(depth, after, comma + RenderMembers(rest), okRest);
      GuardIsExact(depth, value);
      Parts(depth, Render(value), ok, tail, okRest);
      Padded(depth, colon, Render(value) + tail, ok && okRest);
      ScanQuoted(depth, key);
      Parts(depth, Quoted(key), okKey, colon + (Render(value) + tail), ok && okRest);
      Padded(depth, before, Quoted(key) + (colon + (Render(value) + tail)), okKey && ok && okRest);
  }

  // --------------------------------------------------------------- the bounded body

  function ScanChunks(s: State, chunks: seq<seq<byte>>): Option<State>
    decreases |chunks|
  {
    if chunks == [] then Some(s)
    else
      var next := Scan(s, chunks[0]);
      if next.None? then None else ScanChunks(next.value, chunks[1..])
  }

  lemma {:induction false} ChunksDoNotMatter(s: State, chunks: seq<seq<byte>>)
    ensures ScanChunks(s, chunks) == Scan(s, Concat(chunks))
    decreases |chunks|
  {
    if chunks != [] {
      ScanConcat(s, chunks[0], Concat(chunks[1..]));
      var next := Scan(s, chunks[0]);
      if next.Some? { ChunksDoNotMatter(next.value, chunks[1..]); }
    }
  }

  /** A whole JSON text with white space around it, in chunks of any size: the guard accepts
      exactly the texts within the bounds and ends outside any string at its first depth. */
  lemma ChunkedTextIsExact(depth: nat, before: seq<byte>, v: Json, after: seq<byte>, chunks: seq<seq<byte>>)
    requires depth <= MAX_DEPTH && White(before) && WellFormed(v) && White(after)
    requires Concat(chunks) == before + (Render(v) + after)
    ensures ScanChunks(Outside(depth), chunks) == Verdict(depth, depth + Depth(v) <= MAX_DEPTH && StringsFit(v))
  {
    var ok := depth + Depth(v) <= MAX_DEPTH && StringsFit(v);
    ChunksDoNotMatter(Outside(depth), chunks);
    GuardIsExact(depth, v);
    EmptyScan(depth);
    Padded(depth, after, [], true);
    assert after + [] == after;
    Parts(depth, Render(v), ok, after, true);
    Padded(depth, before, Render(v) + after, ok);
  }

  /** What the next read brings: a chunk, or the deadline passing before or during the wait. */
  datatype Arrival = Chunk(bytes: seq<byte>) | Late

  datatype Ending = Finished | DeadlinePassed | TooLarge | TooDeepOrLong

  /** What may be handed on: within the size limit, and accepted by the guard. */
  predicate Passes(maxBytes: nat, body: seq<byte>) { |body| <= maxBytes && Scan(Outside(0), body).Some? }

  class BoundedResponseStream {
    const maxBytes: nat
    var received: nat
    const limits: JsonPayloadLimits
    var closed: bool

    constructor (maxBytes: nat)
      ensures this.maxBytes == maxBytes && received == 0 && !closed && limits.View() == Outside(0) && fresh(limits)
    {
      this.maxBytes, received, closed := maxBytes, 0, false;
      limits := new JsonPayloadLimits();
    }

    /** Hands on chunks while they pass; the first that does not is never handed on. */
    method Iterate(arrivals: seq<Arrival>) returns (out: seq<seq<byte>>, ending: Ending)
      requires received == 0 && !closed && limits.View() == Outside(0)
      modifies this, limits
      ensures |out| <= |arrivals| && forall i :: 0 <= i < |out| ==> arrivals[i] == Chunk(out[i])
      ensures Passes(maxBytes, Concat(out))
      ensures ending == Finished <==> |out| == |arrivals|
      ensures ending == DeadlinePassed <==> |out| < |arrivals| && arrivals[|out|].Late?
      ensures ending == TooLarge <==>
                |out| < |arrivals| && arrivals[|out|].Chunk? && |Concat(out)| + |arrivals[|out|].bytes| > maxBytes
      ensures ending in {TooLarge, TooDeepOrLong} ==> !Passes(maxBytes, Concat(out) + arrivals[|out|].bytes)
      ensures closed <==> ending in {DeadlinePassed, TooLarge}
    {
      out := [];
      for i := 0 to |arrivals|
        invariant |out| == i && (forall k :: 0 <= k < i ==> arrivals[k] == Chunk(out[k])) && !closed
        invariant received == |Concat(out)| <= maxBytes
        invariant Scan(Outside(0), Concat(out)) == Some(limits.View())
      {
        if arrivals[i].Late? {
          closed := true;
          return out, DeadlinePassed;
        }
        var chunk := arrivals[i].bytes;
        received := received + |chunk|;
        if received > maxBytes {
          closed := true;
          return out, TooLarge;
        }
        ScanConcat(Outside(0), Concat(out), chunk);
        var ok := limits.Observe(chunk);
        if !ok { return out, TooDeepOrLong; }
        ConcatOneMore(out, chunk);
        out := out + [chunk];
      }
      ending := Finished;
    }
  }
}
