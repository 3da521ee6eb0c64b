// The CPU-list printer and the Cpus_allowed_list parser of utils/cpu_mask.hpp, proved inverse.
module CpuList {
  import opened Types
  import opened Decimal
  import opened Sorting

  const CPU_SETSIZE := 1024
  const INT_MAX := 0x7fffffff

  predicate Ids(cpus: seq<int>) { forall i :: 0 <= i < |cpus| ==> 0 <= cpus[i] < CPU_SETSIZE }

  // lo, lo + 1, ..., hi
  function Span(lo: int, hi: int): (r: seq<int>)
    decreases hi - lo
  {
    if hi < lo then [] else Span(lo, hi - 1) + [hi]
  }

  // ---- Text of a list ----------------------------------------------------------------------------------

  datatype Item = Item(lo: nat, hi: nat)

  function ItemText(x: Item): string {
    if x.lo == x.hi then Text(x.lo) else Text(x.lo) + "-" + Text(x.hi)
  }

  function Render(items: seq<Item>): string {
    if items == [] then ""
    else if |items| == 1 then ItemText(items[0])
    else ItemText(items[0]) + "," + Render(items[1..])
  }

  function Expand(items: seq<Item>): seq<int> {
    if items == [] then [] else Span(items[0].lo, items[0].hi) + Expand(items[1..])
  }

  // The length of the run of successive numbers a list starts with.
  function RunLength(s: seq<int>): (n: nat)
    requires s != []
    ensures 1 <= n <= |s| && s[n - 1] == s[0] + n - 1
  {
    if |s| > 1 && s[1] == s[0] + 1 then 1 + RunLength(s[1..]) else 1
  }

  lemma {:induction false} RunLengthRun(s: seq<int>)
    requires s != []
    ensures forall k :: 0 <= k < RunLength(s) ==> s[k] == s[0] + k
  {
    if |s| > 1 && s[1] == s[0] + 1 {
      RunLengthRun(s[1..]);
      forall k | 0 < k < RunLength(s)
        ensures s[k] == s[0] + k
      {
        assert s[1..][k - 1] == s[1] + (k - 1);
      }
    }
  }

  function Chunks(s: seq<int>): (r: seq<Item>)
    requires Ids(s)
    ensures s != [] ==> r != []
  {
    if s == [] then [] else
    var n := RunLength(s);
    [Item(s[0], s[n - 1])] + Chunks(s[n..])
  }

  lemma {:induction false} ChunksStep(s: seq<int>)
    requires Ids(s) && s != []
    ensures var n, c := RunLength(s), Chunks(s); Ids(s[n..]) && c[0] == Item(s[0], s[n - 1]) && c[1..] == Chunks(s[n..])
  {
    hide RunLength;
    assert Chunks(s)[1..] == Chunks(s[RunLength(s)..]);
  }

  lemma IdsDrop(s: seq<int>, n: nat)
    requires Ids(s) && n <= |s|
    ensures Ids(s[n..])
  {
  }

  function CpuText(cpus: seq<int>): string
    requires Ids(cpus)
  {
    SortIds(cpus);
    Render(Chunks(Sort(cpus)))
  }

  lemma {:induction false} SortIds(cpus: seq<int>)
    ensures Ids(cpus) ==> Ids(Sort(cpus))
  {
    forall i | 0 <= i < |cpus| && Ids(cpus)
      ensures 0 <= Sort(cpus)[i] < CPU_SETSIZE
    {
      assert Sort(cpus)[i] in multiset(Sort(cpus));
      assert Sort(cpus)[i] in multiset(cpus);
    }
  }

  lemma {:induction false} SpanIs(s: seq<int>, n: nat)
    requires 1 <= n <= |s| && forall k :: 0 <= k < n ==> s[k] == s[0] + k
    ensures Span(s[0], s[n - 1]) == s[..n]
  {
    if n > 1 {
      SpanIs(s, n - 1);
      assert s[..n] == s[..n - 1] + [s[n - 1]];
    }
  }

  lemma {:induction false} ExpandChunks(s: seq<int>)
    requires Ids(s)
    ensures Expand(Chunks(s)) == s
    decreases |s|
  {
    hide RunLength, Span, Chunks, Ids;
    if s == [] {
      assert Chunks(s) == [] by { ChunksEmpty(s); }
    } else {
      var n := RunLength(s);
      RunLengthRun(s);
      SpanIs(s, n);
      ChunksStep(s);
      ExpandChunks(s[n..]);
      assert s == s[..n] + s[n..];
    }
  }

  lemma {:induction false} ChunksEmpty(s: seq<int>)
    requires Ids(s) && s == []
    ensures Chunks(s) == []
  {
  }

  // ---- The printer -------------------------------------------------------------------------------------

  // What is still to be printed when the first i numbers have been.
  function Tail(s: seq<int>, i: nat): string
    requires Ids(s) && i <= |s|
  {
    if i == 0 then Render(Chunks(s))
    else if i == |s| then ""
    else if s[i] == s[i - 1] + 1 then
      var n := RunLength(s[i..]);
      "-" + Text(s[i + n - 1]) + More(s[i + n..])
    else "," + Render(Chunks(s[i..]))
  }

  function More(s: seq<int>): string
    requires Ids(s)
  {
    if s == [] then "" else "," + Render(Chunks(s))
  }

  lemma {:induction false} RenderChunks(s: seq<int>)
    requires Ids(s) && s != []
    ensures var n := RunLength(s); Ids(s[n..]) && Render(Chunks(s)) == ItemText(Item(s[0], s[n - 1])) + More(s[n..])
  {
    hide RunLength, Chunks, ItemText, Ids;
    var n := RunLength(s);
    ChunksStep(s);
    assert |Chunks(s)| == 1 || Chunks(s)[1..] != [];
    if n == |s| { ChunksEmpty(s[n..]); }
  }

  lemma {:induction false} RunLengthStep(s: seq<int>)
    requires s != []
    ensures RunLength(s) == if |s| > 1 && s[1] == s[0] + 1 then 1 + RunLength(s[1..]) else 1
  {
  }

  // What the loop prints for number i.
  function Printed(s: seq<int>, i: nat): string
    requires Ids(s) && i < |s|
  {
    if i == 0 then Text(s[i])
    else if s[i] != s[i - 1] + 1 then "," + Text(s[i])
    else if i + 1 < |s| && s[i + 1] == s[i] + 1 then ""
    else "-" + Text(s[i])
  }

  // The text of a chunk after its first number.
  function RunEnd(s: seq<int>): string
    requires Ids(s) && s != []
  {
    var n := RunLength(s);
    "-" + Text(s[n - 1]) + More(s[n..])
  }

  lemma TailRun(s: seq<int>, i: nat)
    requires Ids(s) && 0 < i < |s| && s[i] == s[i - 1] + 1
    ensures Ids(s[i..]) && Tail(s, i) == RunEnd(s[i..])
  {
    hide RunLength, Chunks, Render, ItemText, Text;
    var rest := s[i..];
    assert rest[RunLength(rest)..] == s[i + RunLength(rest)..];
  }

  // Dropping the first number of a run of several keeps its end.
  lemma {:induction false} RunEndAfter(s: seq<int>)
    requires Ids(s) && |s| > 1 && s[1] == s[0] + 1
    ensures var n := RunLength(s); n > 1 && Ids(s[1..]) && Ids(s[n..]) && RunEnd(s[1..]) == "-" + Text(s[n - 1]) + More(s[n..])
  {
    hide RunLength, Text, More, Ids;
    RunLengthStep(s);
    IdsDrop(s, 1);
    var n := RunLength(s);
    IdsDrop(s, n);
    assert s[1..][n - 1..] == s[n..] && s[1..][n - 2] == s[n - 1];
  }

  // A chunk is its first number, and then its end if it has one.
  lemma {:induction false} ChunkText(s: seq<int>)
    requires Ids(s) && s != []
    ensures Ids(s[1..])
    ensures Render(Chunks(s)) == Text(s[0]) + if |s| > 1 && s[1] == s[0] + 1 then RunEnd(s[1..]) else More(s[1..])
  {
    hide RunLength, Chunks, Render, ItemText, Text, More, RunEnd, Ids;
    IdsFacts(s);
    RunLengthStep(s);
    FirstChunk(s);
    if |s| > 1 && s[1] == s[0] + 1 { RunEndAfter(s); }
  }

  lemma {:induction false} FirstChunk(s: seq<int>)
    requires Ids(s) && s != []
    ensures var n := RunLength(s);
      Ids(s[n..]) && Render(Chunks(s)) == Text(s[0]) + if n == 1 then More(s[n..]) else "-" + Text(s[n - 1]) + More(s[n..])
  {
    hide RunLength, Chunks, Render, Text, More, Ids;
    IdsFacts(s);
    RenderChunks(s);
    var n := RunLength(s);
    JoinRun(Text(s[0]), Text(s[n - 1]), More(s[n..]));
  }

  lemma {:induction false} IdsFacts(s: seq<int>)
    requires Ids(s) && s != []
    ensures Ids(s[1..]) && 0 <= s[0] && 0 <= s[RunLength(s) - 1]
  {
    hide RunLength;
  }

  lemma JoinRun(first: string, end: string, more: string)
    ensures first + "-" + end + more == first + ("-" + end + more)
  {
    Associative(first, "-", end);
    Associative(first, "-" + end, more);
  }

  lemma Associative(a: string, b: string, c: string)
    ensures a + (b + c) == (a + b) + c
  {
  }

  // Inside a run only its last number is printed.
  lemma RunEndStep(s: seq<int>)
    requires Ids(s) && s != []
    ensures Ids(s[1..])
    ensures RunEnd(s) == if |s| > 1 && s[1] == s[0] + 1 then RunEnd(s[1..]) else "-" + Text(s[0]) + More(s[1..])
  {
    hide RunLength, Text, More, Ids;
    RunLengthStep(s);
    IdsDrop(s, 1);
    if |s| > 1 && s[1] == s[0] + 1 { RunEndAfter(s); }
  }

  // The tail after number i, by what follows it.
  lemma TailNext(s: seq<int>, i: nat)
    requires Ids(s) && i < |s|
    ensures Ids(s[i + 1..])
    ensures Tail(s, i + 1) == if i + 1 < |s| && s[i + 1] == s[i] + 1 then RunEnd(s[i + 1..]) else More(s[i + 1..])
  {
    hide RunEnd, Chunks, Render;
    IdsDrop(s, i + 1);
    if i + 1 < |s| && s[i + 1] == s[i] + 1 { TailRun(s, i + 1); }
  }

  lemma TailNew(s: seq<int>, i: nat)
    requires Ids(s) && i < |s| && (i == 0 || s[i] != s[i - 1] + 1)
    ensures Ids(s[i..]) && Tail(s, i) == if i == 0 then Render(Chunks(s[i..])) else "," + Render(Chunks(s[i..]))
  {
    hide Chunks, Render;
    assert i == 0 ==> s[i..] == s;
  }

  lemma TailStep(s: seq<int>, i: nat)
    requires Ids(s) && i < |s|
    ensures Tail(s, i) == Printed(s, i) + Tail(s, i + 1)
  {
    hide RunEnd, Chunks, Render, More, Text, Tail, Ids;
    var rest := s[i..];
    IdsDrop(s, i);
    assert rest[1..] == s[i + 1..] && rest[0] == s[i];
    TailNext(s, i);
    if i > 0 && s[i] == s[i - 1] + 1 {
      TailRun(s, i);
      RunEndStep(rest);
    } else {
      TailNew(s, i);
      ChunkText(rest);
      if i > 0 { Associative(",", Text(s[i]), Tail(s, i + 1)); }
    }
  }

  // CpuMask::to_string
  method Print(cpus: seq<int>) returns (text: string)
    requires Ids(cpus)
    ensures text == CpuText(cpus)
  {
    if cpus == [] { return ""; }
    SortIds(cpus);
    text := PrintSorted(Sort(cpus));
  }

  method PrintSorted(sorted: seq<int>) returns (text: string)
    requires Ids(sorted) && sorted != []
    ensures text == Render(Chunks(sorted))
  {
    hide Chunks, Render, Text, Tail;
    text := "";
    TailEnds(sorted);
    for i := 0 to |sorted|
      invariant text + Tail(sorted, i) == Render(Chunks(sorted))
    {
      TailStep(sorted, i);
      Associative(text, Printed(sorted, i), Tail(sorted, i + 1));
      if i > 0 {
        if sorted[i] == sorted[i - 1] + 1 {
          if i + 1 < |sorted| && sorted[i + 1] == sorted[i] + 1 { continue; }
          text := text + ("-" + Text(sorted[i]));
        } else {
          text := text + ("," + Text(sorted[i]));
        }
      } else {
        text := text + Text(sorted[i]);
      }
    }
  }

  lemma {:induction false} TailEnds(s: seq<int>)
    requires Ids(s)
    ensures Tail(s, 0) == Render(Chunks(s)) && (s != [] ==> Tail(s, |s|) == "")
  {
  }

  // ---- The parser ---------------------------------------------------------------------------------------

  predicate Space(c: char) { c == ' ' || 9 as char <= c <= 13 as char }

  function LeadingDigits(s: string): (r: string)
    ensures AllDigits(r) && r <= s
  {
    if s != "" && IsDigit(s[0]) then [s[0]] + LeadingDigits(s[1..]) else ""
  }

  // std::stoi, which ignores what follows the digits and throws without a digit or out of range.
  function Stoi(s: string): (r: Option<int>) {
    if s == "" then None
    else if Space(s[0]) then Stoi(s[1..])
    else
      var negative := s[0] == '-';
      var digits := LeadingDigits(if negative || s[0] == '+' then s[1..] else s);
      var value: int := if negative then 0 - Value(digits) else Value(digits);
      if digits == "" || !(-INT_MAX - 1 <= value <= INT_MAX) then None else Some(value)
  }

  function IndexOf(s: string, c: char): (r: Option<nat>)
    ensures r.Some? ==> r.value < |s|
  {
    if s == "" then None
    else if s[0] == c then Some(0)
    else
      var r := IndexOf(s[1..], c);
      if r.None? then None else Some(r.value + 1)
  }

  lemma {:induction false} IndexIs(s: string, c: char, k: nat)
    requires k <= |s| && (forall j :: 0 <= j < k ==> s[j] != c) && (k < |s| ==> s[k] == c)
    ensures IndexOf(s, c) == if k < |s| then Some(k) else None
  {
    if k > 0 {
      IndexIs(s[1..], c, k - 1);
    }
  }

  function ParseItem(item: string): Option<seq<int>> {
    var dash := IndexOf(item, '-');
    if dash.Some? && dash.value > 0 then
      var lo, hi := Stoi(item[..dash.value]), Stoi(item[dash.value + 1..]);
      if lo.None? || hi.None? || lo.value < 0 || hi.value < lo.value || hi.value >= CPU_SETSIZE then None
      else Some(Span(lo.value, hi.value))
    else
      var cpu := Stoi(item);
      if cpu.None? || cpu.value < 0 || cpu.value >= CPU_SETSIZE then None else Some([cpu.value])
  }

  function SkipBlanks(v: string): (r: string)
    ensures |r| <= |v|
  {
    if v != "" && (v[0] == ' ' || v[0] == '\t') then SkipBlanks(v[1..]) else v
  }

  // The CPUs a list denotes, or None if it is malformed.
  function ParseText(v: string): Option<seq<int>>
    decreases |v|
  {
    var v := SkipBlanks(v);
    if v == "" then Some([]) else
    var comma := IndexOf(v, ',');
    var item := ParseItem(if comma.Some? then v[..comma.value] else v);
    if item.None? || comma.None? then item else
    var rest := ParseText(v[comma.value + 1..]);
    if rest.None? then None else Some(item.value + rest.value)
  }

  // std::string::find from an index on
  method FindFrom(s: string, c: char, from: nat) returns (at: nat)
    requires from <= |s|
    ensures from <= at <= |s| && (forall j :: from <= j < at ==> s[j] != c) && (at < |s| ==> s[at] == c)
    ensures at < |s| ==> IndexOf(s[from..], c) == Some(at - from)
    ensures at == |s| ==> IndexOf(s[from..], c) == None
  {
    at := from;
    while at < |s| && s[at] != c
      invariant from <= at <= |s| && forall j :: from <= j < at ==> s[j] != c
    {
      at := at + 1;
    }
    IndexIs(s[from..], c, at - from);
  }

  // One item of the list: a range if a dash comes after its first character.
  method ParseOne(value: string, i: nat, comma: nat) returns (cpus: Option<seq<int>>)
    requires i <= comma <= |value|
    ensures cpus == ParseItem(value[i..comma])
  {
    hide Stoi, IndexOf;
    var dash := FindFrom(value, '-', i);
    ghost var item := value[i..comma];
    IndexIs(item, '-', if dash < comma then dash - i else comma - i);
    if dash > i && dash < comma {
      assert item[..dash - i] == value[i..dash] && item[dash - i + 1..] == value[dash + 1..comma];
      var lo, hi := Stoi(value[i..dash]), Stoi(value[dash + 1..comma]);
      if lo.None? || hi.None? { return None; }
      if lo.value < 0 || hi.value < lo.value || hi.value >= CPU_SETSIZE { return None; }
      var span := [];
      for cpu := lo.value to hi.value + 1
        invariant span == Span(lo.value, cpu - 1)
      {
        span := span + [cpu];
      }
      return Some(span);
    } else {
      var cpu := Stoi(value[i..comma]);
      if cpu.None? { return None; }
      if cpu.value < 0 || cpu.value >= CPU_SETSIZE { return None; }
      return Some([cpu.value]);
    }
  }

  function Joined(cpus: seq<int>, rest: Option<seq<int>>): (r: Option<seq<int>>)
    ensures cpus == [] ==> r == rest
  {
    if rest.None? then None else assert cpus == [] ==> cpus + rest.value == rest.value; Some(cpus + rest.value)
  }

  // Reading one item off the front.
  lemma ParseTextStep(value: string, i: nat, at: nat, comma: nat, cpus: seq<int>)
    requires i <= at < |value| && value[at..] == SkipBlanks(value[i..]) && at <= comma <= |value|
    requires IndexOf(value[at..], ',') == if comma < |value| then Some(comma - at) else None
    ensures var item := ParseItem(value[at..comma]);
      Joined(cpus, ParseText(value[i..])) ==
        if item.None? then None
        else Joined(cpus + item.value, ParseText(value[if comma == |value| then comma else comma + 1..]))
  {
    hide ParseItem, IndexOf;
    var v := value[at..];
    if comma < |value| {
      assert v[..comma - at] == value[at..comma] && v[comma - at + 1..] == value[comma + 1..];
      var item, rest := ParseItem(value[at..comma]), ParseText(value[comma + 1..]);
      if item.Some? && rest.Some? {
        assert (cpus + item.value) + rest.value == cpus + (item.value + rest.value);
      }
    } else {
      assert v == value[at..comma] && value[comma..] == "";
      var item := ParseItem(v);
      if item.Some? { assert (cpus + item.value) + [] == cpus + item.value; }
    }
  }

  // The loop of get_affinity_from_status; every failure gives the empty list.
  method Parse(value: string) returns (cpus: seq<int>)
    ensures cpus == if ParseText(value).Some? then ParseText(value).value else []
  {
    hide IndexOf, ParseItem, SkipBlanks;
    cpus := [];
    var i := 0;
    assert value[0..] == value;
    while i < |value|
      invariant 0 <= i <= |value|
      invariant Joined(cpus, ParseText(value[i..])) == ParseText(value)
    {
      var at := SkipBlanksFrom(value, i);
      if at >= |value| {
        assert ParseText(value[i..]) == Some([]);
        return cpus;
      }
      var comma := FindFrom(value, ',', at);
      ParseTextStep(value, i, at, comma, cpus);
      var item := ParseOne(value, at, comma);
      if item.None? { return []; }
      cpus := cpus + item.value;
      i := if comma == |value| then comma else comma + 1;
    }
    ParseTextEmpty();
    assert value[i..] == "";
  }

  lemma ParseTextEmpty()
    ensures ParseText("") == Some([])
  {
  }

  method SkipBlanksFrom(value: string, from: nat) returns (i: nat)
    requires from <= |value|
    ensures from <= i <= |value| && value[i..] == SkipBlanks(value[from..])
  {
    i := from;
    while i < |value| && (value[i] == ' ' || value[i] == '\t')
      invariant from <= i <= |value| && SkipBlanks(value[i..]) == SkipBlanks(value[from..])
    {
      assert value[i..][1..] == value[i + 1..];
      i := i + 1;
    }
  }

  // ---- Round trip -----------------------------------------------------------------------------------------

  lemma {:induction false} LeadingDigitsAll(s: string)
    requires AllDigits(s)
    ensures LeadingDigits(s) == s
  {
    if s != "" {
      LeadingDigitsAll(s[1..]);
    }
  }

  lemma {:induction false} StoiText(n: nat)
    requires n <= INT_MAX
    ensures Stoi(Text(n)) == Some(n)
  {
    assert IsDigit(Text(n)[0]);
    LeadingDigitsAll(Text(n));
    ValueOfText(n);
  }

  predicate ItemOk(x: Item) { x.lo <= x.hi < CPU_SETSIZE }

  lemma {:induction false} SpanOne(n: int)
    ensures Span(n, n) == [n]
  {
    assert Span(n, n - 1) == [];
  }

  lemma ParseItemText(x: Item)
    requires ItemOk(x)
    ensures ParseItem(ItemText(x)) == Some(Span(x.lo, x.hi))
    ensures ',' !in ItemText(x) && SkipBlanks(ItemText(x)) == ItemText(x) && ItemText(x) != ""
  {
    hide Text, Stoi;
    var lo, hi := Text(x.lo), Text(x.hi);
    assert IsDigit(lo[0]);
    StoiText(x.lo);
    StoiText(x.hi);
    if x.lo == x.hi {
      IndexIs(lo, '-', |lo|);
      SpanOne(x.lo);
    } else {
      var t := lo + "-" + hi;
      IndexIs(t, '-', |lo|);
      assert t[..|lo|] == lo && t[|lo| + 1..] == hi;
    }
  }

  lemma {:induction false} ParseRender(items: seq<Item>)
    requires forall i :: 0 <= i < |items| ==> ItemOk(items[i])
    ensures ParseText(Render(items)) == Some(Expand(items))
  {
    hide ItemText, ParseItem, Span;
    if items != [] {
      var first := ItemText(items[0]);
      ParseItemText(items[0]);
      ParseRender(items[1..]);
      if |items| == 1 {
        IndexIs(first, ',', |first|);
        assert Expand(items[1..]) == [] && Expand(items) == Span(items[0].lo, items[0].hi);
        assert Render(items) == first;
      } else {
        var rest := Render(items[1..]);
        var t := first + "," + rest;
        IndexIs(t, ',', |first|);
        assert SkipBlanks(t) == t;
        assert t[..|first|] == first && t[|first| + 1..] == rest;
      }
    }
  }

  lemma {:induction false} ChunksOk(s: seq<int>)
    requires Ids(s)
    ensures forall i :: 0 <= i < |Chunks(s)| ==> ItemOk(Chunks(s)[i])
    decreases |s|
  {
    if s != [] {
      ChunksOk(s[RunLength(s)..]);
    }
  }

  // Whatever the order and however often a CPU is listed, reading the printed text gives the list
  // back, sorted.
  lemma {:induction false} RoundTrip(cpus: seq<int>)
    requires Ids(cpus)
    ensures ParseText(CpuText(cpus)) == Some(Sort(cpus))
  {
    SortIds(cpus);
    ChunksOk(Sort(cpus));
    ParseRender(Chunks(Sort(cpus)));
    ExpandChunks(Sort(cpus));
  }

  // ---- What the parser makes of other texts ----------------------------------------------------------------

  // Leading blanks and signs are read, what follows the digits is not, and a text that starts otherwise is
  // no number.
  lemma {:induction false} StoiMeans(n: nat, rest: string, s: string)
    requires n <= INT_MAX && (rest != "" ==> !IsDigit(rest[0]))
    ensures Stoi(Text(n) + rest) == Some(n) && Stoi("+" + Text(n)) == Some(n)
    ensures Stoi("-" + Text(n)).Some? && Stoi("-" + Text(n)).value + n == 0
    ensures Stoi(" " + s) == Stoi(s)
    ensures s == "" || (!Space(s[0]) && s[0] != '-' && s[0] != '+' && !IsDigit(s[0])) ==> Stoi(s) == None
  {
    hide Stoi, Text, Value, LeadingDigits;
    StoiUnsigned(n, rest);
    StoiSigned(n);
    StoiOther(s);
  }

  lemma {:induction false} StoiUnsigned(n: nat, rest: string)
    requires n <= INT_MAX && (rest != "" ==> !IsDigit(rest[0]))
    ensures Stoi(Text(n) + rest) == Some(n)
  {
    hide Text, Value, LeadingDigits;
    var t := Text(n);
    LeadingDigitsOf(t, rest);
    ValueOfText(n);
    assert IsDigit(t[0]) && (t + rest)[0] == t[0];
  }

  lemma {:induction false} StoiSigned(n: nat)
    requires n <= INT_MAX
    ensures Stoi("+" + Text(n)) == Some(n)
    ensures Stoi("-" + Text(n)).Some? && Stoi("-" + Text(n)).value + n == 0
  {
    hide Text, Value, LeadingDigits;
    var t := Text(n);
    LeadingDigitsAll(t);
    ValueOfText(n);
    assert ("+" + t)[1..] == t && ("-" + t)[1..] == t;
  }

  lemma {:induction false} StoiOther(s: string)
    ensures Stoi(" " + s) == Stoi(s)
    ensures s == "" || (!Space(s[0]) && s[0] != '-' && s[0] != '+' && !IsDigit(s[0])) ==> Stoi(s) == None
  {
    hide Value;
    assert (" " + s)[1..] == s;
  }

  lemma {:induction false} LeadingDigitsOf(t: string, rest: string)
    requires AllDigits(t) && (rest != "" ==> !IsDigit(rest[0]))
    ensures LeadingDigits(t + rest) == t
  {
    if t == "" {
      assert t + rest == rest;
    } else {
      LeadingDigitsOf(t[1..], rest);
      assert (t + rest)[1..] == t[1..] + rest;
    }
  }

  // A number stands for itself if it is a CPU, a range for its numbers if it ascends and all are.
  lemma {:induction false} ItemMeans(lo: nat, hi: nat)
    requires lo <= INT_MAX && hi <= INT_MAX
    ensures ParseItem(Text(lo)) == if lo < 1024 then Some([lo]) else None
    ensures ParseItem(Text(lo) + "-" + Text(hi)) == if lo <= hi < 1024 then Some(Span(lo, hi)) else None
  {
    hide Text, Stoi;
    StoiText(lo);
    StoiText(hi);
    var t := Text(lo) + "-" + Text(hi);
    IndexIs(Text(lo), '-', |Text(lo)|);
    IndexIs(t, '-', |Text(lo)|);
    assert t[..|Text(lo)|] == Text(lo) && t[|Text(lo)| + 1..] == Text(hi);
  }

  // What follows an item and a comma is read on its own, also if it is nothing.
  lemma {:induction false} ItemThenRest(item: string, v: string)
    requires item != "" && ',' !in item && item[0] != ' ' && item[0] != '\t'
    ensures var first, rest := ParseItem(item), ParseText(v);
      ParseText(item + "," + v) == if first.None? || rest.None? then None else Some(first.value + rest.value)
    ensures ParseText("") == Some([])
  {
    hide ParseItem;
    var t := item + "," + v;
    IndexIs(t, ',', |item|);
    assert SkipBlanks(t) == t && t[..|item|] == item && t[|item| + 1..] == v;
  }

  // No printed run could be longer: the next one does not go on where it ends.
  lemma {:induction false} ChunksAreMaximal(s: seq<int>)
    requires Ids(s)
    ensures forall i :: 0 <= i < |Chunks(s)| - 1 ==> Chunks(s)[i + 1].lo != Chunks(s)[i].hi + 1
    decreases |s|
  {
    hide RunLength, Chunks;
    if s == [] {
      ChunksEmpty(s);
    } else {
      var n := RunLength(s);
      ChunksStep(s);
      ChunksAreMaximal(s[n..]);
      RunEnds(s);
      var c := Chunks(s);
      if n < |s| { ChunksStep(s[n..]); } else { ChunksEmpty(s[n..]); }
      assert forall i :: 0 < i < |c| ==> c[i] == c[1..][i - 1];
    }
  }

  lemma {:induction false} RunEnds(s: seq<int>)
    requires s != []
    ensures RunLength(s) < |s| ==> s[RunLength(s)] != s[RunLength(s) - 1] + 1
  {
    if |s| > 1 && s[1] == s[0] + 1 { RunEnds(s[1..]); }
  }

  // Blanks before an item do not matter, and whatever is accepted lists CPUs only.
  lemma {:induction false} BlanksBefore(v: string)
    ensures ParseText(" " + v) == ParseText(v) && ParseText("\t" + v) == ParseText(v)
  {
    hide ParseItem, IndexOf;
    assert (" " + v)[1..] == v && ("\t" + v)[1..] == v;
    assert SkipBlanks(" " + v) == SkipBlanks(v) && SkipBlanks("\t" + v) == SkipBlanks(v);
  }

  lemma {:induction false} SpanIds(lo: int, hi: int)
    requires 0 <= lo && hi < CPU_SETSIZE
    ensures Ids(Span(lo, hi))
    decreases hi - lo
  {
    if lo <= hi { SpanIds(lo, hi - 1); }
  }

  lemma {:induction false} ParsedAreIds(v: string)
    ensures ParseText(v).Some? ==> Ids(ParseText(v).value)
    decreases |v|
  {
    hide Stoi, Span;
    var w := SkipBlanks(v);
    if w != "" {
      var comma := IndexOf(w, ',');
      var item := if comma.Some? then w[..comma.value] else w;
      var dash := IndexOf(item, '-');
      if dash.Some? && dash.value > 0 {
        var lo, hi := Stoi(item[..dash.value]), Stoi(item[dash.value + 1..]);
        if ParseItem(item).Some? { SpanIds(lo.value, hi.value); }
      }
      if comma.Some? { ParsedAreIds(w[comma.value + 1..]); }
    }
  }

  // The text determines the CPUs and how often each is listed.
  lemma TextDetermines(a: seq<int>, b: seq<int>)
    requires Ids(a) && Ids(b) && CpuText(a) == CpuText(b)
    ensures multiset(a) == multiset(b)
  {
    RoundTrip(a);
    RoundTrip(b);
    assert multiset(Sort(a)) == multiset(a) && multiset(Sort(b)) == multiset(b);
  }

  // ---- Masks -------------------------------------------------------------------------------------------------

  // CpuMask::from_vector; ids a mask cannot hold are dropped.
  method FromVector(cpus: seq<int>) returns (mask: set<nat>)
    ensures forall c: nat :: c in mask <==> c in cpus && c < CPU_SETSIZE
  {
    mask := {};
    for i := 0 to |cpus|
      invariant forall c: nat :: c in mask <==> c in cpus[..i] && c < CPU_SETSIZE
    {
      if 0 <= cpus[i] < CPU_SETSIZE { mask := mask + {cpus[i]}; }
    }
    assert cpus[..|cpus|] == cpus;
  }

  // CpuMask::to_vector
  method ToVector(mask: set<nat>) returns (cpus: seq<int>)
    ensures Strict(cpus) && forall c: int :: c in cpus <==> 0 <= c < CPU_SETSIZE && c in mask
  {
    cpus := [];
    for i := 0 to CPU_SETSIZE
      invariant Strict(cpus) && forall c: int :: c in cpus <==> 0 <= c < i && c in mask
    {
      if i in mask {
        assert forall k :: 0 <= k < |cpus| ==> cpus[k] in cpus;
        cpus := cpus + [i];
      }
    }
  }

  lemma StrictRest(s: seq<int>)
    requires Strict(s) && s != []
    ensures Strict(s[1..]) && forall c :: c in s[1..] <==> c in s && c != s[0]
  {
    assert s == [s[0]] + s[1..];
  }

  lemma {:induction false} StrictIsUnique(a: seq<int>, b: seq<int>)
    requires Strict(a) && Strict(b) && forall c :: c in a <==> c in b
    ensures a == b
  {
    if a == [] {
      assert forall i :: 0 <= i < |b| ==> b[i] in a;
    } else {
      assert a[0] in b && b[0] in a;
      assert a == [a[0]] + a[1..] && b == [b[0]] + b[1..];
      assert a[0] == b[0];
      StrictRest(a);
      StrictRest(b);
      StrictIsUnique(a[1..], b[1..]);
    }
  }

  // A list that goes through a mask comes back sorted, once each.
  method ThroughMask(cpus: seq<int>) returns (r: seq<int>)
    requires Ids(cpus)
    ensures r == SortUnique(cpus)
  {
    var mask := FromVector(cpus);
    r := ToVector(mask);
    forall c
      ensures c in r <==> c in cpus
    {
      if c in cpus { assert exists k :: 0 <= k < |cpus| && cpus[k] == c; }
    }
    StrictIsUnique(r, SortUnique(cpus));
  }
}
