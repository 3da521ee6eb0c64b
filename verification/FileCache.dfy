// The timed LRU cache of file contents in utils/file_utils.hpp: a content map, a recency list and an
// index from paths to list nodes.
module FileCache {
  import opened Types

  const MAX_CACHE_SIZE := 1000

  datatype CacheEntry = CacheEntry(content: string, timestamp: int)

  // ---- Recency as a list of paths, least recently used first -------------------------------------------

  function Without(paths: seq<string>, path: string): (r: seq<string>)
    ensures path !in r && (forall p :: p in r <==> p in paths && p != path)
    ensures |r| <= |paths|
  {
    if paths == [] then [] else
    var last := paths[|paths| - 1];
    var r := Without(paths[..|paths| - 1], path);
    if last == path then r else r + [last]
  }

  function Touched(paths: seq<string>, path: string): seq<string> { Without(paths, path) + [path] }

  // Room is made for a new path only, by dropping the least recently used one.
  function Inserted(paths: seq<string>, path: string): seq<string> {
    if path !in paths && |paths| >= MAX_CACHE_SIZE then Touched(paths[1..], path) else Touched(paths, path)
  }

  predicate NoDuplicates(paths: seq<string>) { forall i, j :: 0 <= i < j < |paths| ==> paths[i] != paths[j] }

  lemma {:induction false} WithoutKeeps(paths: seq<string>, path: string)
    requires NoDuplicates(paths)
    ensures NoDuplicates(Without(paths, path))
    ensures path in paths ==> |Without(paths, path)| == |paths| - 1
    ensures path !in paths ==> Without(paths, path) == paths
  {
    if paths != [] {
      var n := |paths| - 1;
      var before := paths[..n];
      WithoutKeeps(before, path);
      assert paths == before + [paths[n]];
      assert paths[n] !in before;
    }
  }

  // The time a path was last used, in list order.
  ghost predicate InUseOrder(paths: seq<string>, lastUse: map<string, nat>, now: nat) {
    && (forall p :: p in paths ==> p in lastUse && lastUse[p] <= now)
    && (forall i, j :: 0 <= i < j < |paths| ==> lastUse[paths[i]] < lastUse[paths[j]])
  }

  lemma {:induction false} WithoutOrdered(paths: seq<string>, path: string, lastUse: map<string, nat>, now: nat)
    requires InUseOrder(paths, lastUse, now)
    ensures InUseOrder(Without(paths, path), lastUse, now)
  {
    if paths != [] {
      var n := |paths| - 1;
      var before := paths[..n];
      assert forall p :: p in before ==> p in paths;
      WithoutOrdered(before, path, lastUse, now);
      var r := Without(before, path);
      forall i | 0 <= i < |r|
        ensures lastUse[r[i]] < lastUse[paths[n]]
      {
        assert r[i] in before;
        var k :| 0 <= k < n && paths[k] == r[i];
      }
    }
  }

  lemma TouchedOrdered(paths: seq<string>, path: string, lastUse: map<string, nat>, now: nat)
    requires InUseOrder(paths, lastUse, now)
    ensures InUseOrder(Touched(paths, path), lastUse[path := now + 1], now + 1)
  {
    WithoutOrdered(paths, path, lastUse, now);
    var r := Without(paths, path);
    assert forall i :: 0 <= i < |r| ==> r[i] in r;
  }

  // ---- The linked list and its index ------------------------------------------------------------------------

  // A list node; an iterator is a node's identity.
  datatype Node = Node(id: nat, path: string)

  function Paths(nodes: seq<Node>): (r: seq<string>)
    ensures |r| == |nodes| && forall i :: 0 <= i < |nodes| ==> r[i] == nodes[i].path
  {
    seq(|nodes|, i requires 0 <= i < |nodes| => nodes[i].path)
  }

  // The index finds the one node of every path.
  ghost predicate Indexed(nodes: seq<Node>, order: map<string, nat>, next: nat) {
    && (forall n :: n in nodes ==> n.path in order && order[n.path] == n.id && n.id < next)
    && (forall p :: p in order ==> Node(order[p], p) in nodes)
    && (forall p, q :: p in order && q in order && order[p] == order[q] ==> p == q)
    && NoDuplicates(Paths(nodes))
  }

  // std::list::erase
  function Erased(nodes: seq<Node>, id: nat): (r: seq<Node>)
    ensures forall n :: n in r <==> n in nodes && n.id != id
  {
    if nodes == [] then [] else
    var last := nodes[|nodes| - 1];
    var r := Erased(nodes[..|nodes| - 1], id);
    assert nodes == nodes[..|nodes| - 1] + [last];
    if last.id == id then r else r + [last]
  }

  lemma {:induction false} ErasedPaths(nodes: seq<Node>, id: nat, path: string)
    requires forall n :: n in nodes ==> (n.id == id <==> n.path == path)
    ensures Paths(Erased(nodes, id)) == Without(Paths(nodes), path)
  {
    if nodes != [] {
      var before, last := nodes[..|nodes| - 1], nodes[|nodes| - 1];
      assert last in nodes && forall n :: n in before ==> n in nodes;
      ErasedPaths(before, id, path);
      assert Paths(nodes)[..|nodes| - 1] == Paths(before);
      PathsAppend(Erased(before, id), last);
    }
  }

  lemma PathsAppend(nodes: seq<Node>, n: Node)
    ensures Paths(nodes + [n]) == Paths(nodes) + [n.path]
  {
  }

  lemma PathListed(nodes: seq<Node>)
    ensures forall p :: p in Paths(nodes) ==> exists n :: n in nodes && n.path == p
    ensures forall n :: n in nodes ==> n.path in Paths(nodes)
  {
    forall p | p in Paths(nodes)
      ensures exists n :: n in nodes && n.path == p
    {
      var i :| 0 <= i < |nodes| && Paths(nodes)[i] == p;
      assert nodes[i] in nodes;
    }
    forall n | n in nodes
      ensures n.path in Paths(nodes)
    {
      var i :| 0 <= i < |nodes| && nodes[i] == n;
      assert Paths(nodes)[i] == n.path;
    }
  }

  // Appending a node for a path that is not listed.
  lemma IndexedAppend(nodes: seq<Node>, order: map<string, nat>, next: nat, path: string)
    requires Indexed(nodes, order, next) && path !in order
    ensures Indexed(nodes + [Node(next, path)], order[path := next], next + 1)
    ensures Paths(nodes + [Node(next, path)]) == Paths(nodes) + [path]
  {
    PathsAppend(nodes, Node(next, path));
    PathListed(nodes);
    assert path !in Paths(nodes);
    hide Paths;
    assert forall p :: p in order ==> order[p] < next by {
      forall p | p in order
        ensures order[p] < next
      {
        assert Node(order[p], p) in nodes;
      }
    }
    var more := Paths(nodes) + [path];
    assert forall i :: 0 <= i < |nodes| ==> more[i] in Paths(nodes);
  }

  // Erasing the node the index finds for a path.
  lemma {:induction false} IndexedErase(nodes: seq<Node>, order: map<string, nat>, next: nat, path: string)
    requires Indexed(nodes, order, next) && path in order
    ensures Indexed(Erased(nodes, order[path]), order - {path}, next)
    ensures Paths(Erased(nodes, order[path])) == Without(Paths(nodes), path)
    ensures path in Paths(nodes)
  {
    hide Erased, Without, Paths, NoDuplicates;
    PathListed(nodes);
    ErasedPaths(nodes, order[path], path);
    WithoutKeeps(Paths(nodes), path);
  }

  lemma {:induction false} DistinctCount(paths: seq<string>, all: set<string>)
    requires NoDuplicates(paths) && forall p :: p in all <==> p in paths
    ensures |all| == |paths|
  {
    if paths != [] {
      var n := |paths| - 1;
      assert paths == paths[..n] + [paths[n]] && paths[n] !in paths[..n];
      DistinctCount(paths[..n], all - {paths[n]});
    } else {
      assert all == {};
    }
  }

  lemma {:induction false} WithoutFirst(paths: seq<string>)
    requires NoDuplicates(paths) && paths != []
    ensures Without(paths, paths[0]) == paths[1..]
  {
    FirstOut(paths, |paths|);
    assert paths[..|paths|] == paths;
  }

  lemma {:induction false} FirstOut(paths: seq<string>, n: nat)
    requires NoDuplicates(paths) && 1 <= n <= |paths|
    ensures Without(paths[..n], paths[0]) == paths[1..n]
  {
    assert paths[..n][..n - 1] == paths[..n - 1];
    if n > 1 { FirstOut(paths, n - 1); }
  }

  class FileCache {
    var content: map<string, CacheEntry>
    var order: map<string, nat>
    var lru: seq<Node>
    var nextId: nat
    ghost var clock: nat
    ghost var lastUse: map<string, nat>

    constructor ()
      ensures Valid() && Recency() == []
    {
      content, order, lru, nextId, clock, lastUse := map[], map[], [], 0, 0, map[];
    }

    // The cached paths, least recently used first.
    function Recency(): seq<string>
      reads this
    {
      Paths(lru)
    }

    ghost predicate ListOk()
      reads this
    {
      Indexed(lru, order, nextId) && InUseOrder(Recency(), lastUse, clock)
    }

    // All three hold the same paths, without duplicates, in order of last use, and no more than the limit.
    ghost predicate Valid()
      reads this
    {
      && ListOk() && |lru| <= MAX_CACHE_SIZE
      && (forall p :: p in content <==> p in order)
    }

    // What Valid says of the three, as seen from outside.
    lemma SamePaths()
      requires Valid()
      ensures NoDuplicates(Recency()) && (forall p :: p in content <==> p in Recency()) && |content| == |Recency()| <= MAX_CACHE_SIZE
    {
      PathListed(lru);
      DistinctCount(Recency(), content.Keys);
    }

    // touch_file_cache_entry
    method Touch(path: string)
      requires ListOk()
      modifies `order, `lru, `nextId, `clock, `lastUse
      ensures ListOk() && Recency() == Touched(old(Recency()), path)
      ensures forall p :: p in order <==> p == path || p in old(order)
      ensures |lru| <= |old(lru)| + (if path in old(order) then 0 else 1)
      ensures clock == old(clock) + 1 && lastUse == old(lastUse)[path := clock]
    {
      hide Indexed, Erased, Without, InUseOrder;
      TouchedOrdered(Recency(), path, lastUse, clock);
      ghost var paths := Recency();
      if path in order {
        Shrinks(lru, order, nextId, path);
        IndexedErase(lru, order, nextId, path);
        lru, order := Erased(lru, order[path]), order - {path};
      } else {
        NotListed(lru, order, nextId, path);
      }
      IndexedAppend(lru, order, nextId, path);
      lru, order, nextId := lru + [Node(nextId, path)], order[path := nextId], nextId + 1;
      clock := clock + 1;
      lastUse := lastUse[path := clock];
    }

    static lemma {:induction false} NotListed(nodes: seq<Node>, order: map<string, nat>, next: nat, path: string)
      requires Indexed(nodes, order, next) && path !in order
      ensures Without(Paths(nodes), path) == Paths(nodes)
    {
      PathListed(nodes);
      WithoutKeeps(Paths(nodes), path);
    }

    static lemma {:induction false} Shrinks(nodes: seq<Node>, order: map<string, nat>, next: nat, path: string)
      requires Indexed(nodes, order, next) && path in order
      ensures |Erased(nodes, order[path])| < |nodes|
    {
      hide Erased, Without;
      IndexedErase(nodes, order, next, path);
      WithoutKeeps(Paths(nodes), path);
    }

    // erase_file_cache_entry
    method Erase(path: string)
      requires Valid()
      modifies `content, `order, `lru
      ensures Valid() && content == old(content) - {path} && Recency() == Without(old(Recency()), path)
    {
      hide Indexed, Erased, Without, InUseOrder;
      WithoutOrdered(Recency(), path, lastUse, clock);
      content := content - {path};
      if path in order {
        IndexedErase(lru, order, nextId, path);
        lru, order := Erased(lru, order[path]), order - {path};
      } else {
        NotListed(lru, order, nextId, path);
      }
    }

    method Invalidate(path: string)
      requires Valid()
      modifies `content, `order, `lru
      ensures Valid() && path !in content && Recency() == Without(old(Recency()), path)
    {
      Erase(path);
    }

    // The first locked part of read_file: an entry younger than the limit is used.
    method Lookup(path: string, now: int, ttl: int) returns (r: Option<string>)
      requires Valid()
      modifies `order, `lru, `nextId, `clock, `lastUse
      ensures Valid()
      ensures if path in content && now - content[path].timestamp < ttl
              then r == Some(content[path].content) && Recency() == Touched(old(Recency()), path)
              else r == None && Recency() == old(Recency())
    {
      hide Indexed, InUseOrder, Touched;
      if path in content && now - content[path].timestamp < ttl {
        Touch(path);
        return Some(content[path].content);
      }
      return None;
    }

    // The second one, after the file was read: only for a new path is one evicted, the least
    // recently used.
    method Store(path: string, text: string, now: int)
      requires Valid()
      modifies this
      ensures Valid() && content.Keys <= old(content).Keys + {path} && path in content && content[path] == CacheEntry(text, now)
      ensures Recency() == Inserted(old(Recency()), path)
      ensures forall p :: p in content && p != path ==> p in old(content) && content[p] == old(content)[p]
      ensures forall p :: p in old(content) && p !in content ==>
        p == old(Recency())[0] && |old(Recency())| == MAX_CACHE_SIZE && path !in old(content)
        && forall q :: q in old(content) && q != p ==> old(lastUse)[p] < old(lastUse)[q]
    {
      hide Valid, Touched, InUseOrder, Paths, NoDuplicates;
      SamePaths();
      MakeRoom(path);
      Put(path, CacheEntry(text, now));
    }

    method Put(path: string, entry: CacheEntry)
      requires Valid() && (path in content || |lru| < MAX_CACHE_SIZE)
      modifies this
      ensures Valid() && content == old(content)[path := entry] && Recency() == Touched(old(Recency()), path)
    {
      hide Indexed, Touched, InUseOrder;
      content := content[path := entry];
      Touch(path);
    }

    method MakeRoom(path: string)
      requires Valid()
      modifies `content, `order, `lru
      ensures Valid() && (path in content <==> path in old(content))
      ensures path !in content ==> |lru| < MAX_CACHE_SIZE
      ensures var was := old(Recency());
        Recency() == if path !in old(content) && |was| >= MAX_CACHE_SIZE then was[1..] else was
      ensures forall p :: p in content ==> p in old(content) && content[p] == old(content)[p]
      ensures forall p :: p in old(content) && p !in content ==>
        p == old(Recency())[0] && |old(Recency())| == MAX_CACHE_SIZE && path !in old(content)
        && forall q :: q in old(content) && q != p ==> old(lastUse)[p] < old(lastUse)[q]
    {
      hide Indexed, Without, Erased, InUseOrder, ListOk;
      SamePaths();
      OldestFirst();
      if path !in content && |content| >= MAX_CACHE_SIZE && lru != [] {
        WithoutFirst(Recency());
        var oldest := lru[0].path;
        Erase(oldest);
      }
    }

    lemma OldestFirst()
      requires Valid()
      ensures forall q :: q in content ==> q in lastUse
      ensures lru != [] ==> lru[0].path in lastUse
      ensures lru != [] ==> forall q :: q in content && q != lru[0].path ==> q in lastUse && lastUse[lru[0].path] < lastUse[q]
    {
      hide Indexed;
      SamePaths();
      if lru != [] {
        forall q | q in content && q != lru[0].path
          ensures q in lastUse && lastUse[lru[0].path] < lastUse[q]
        {
          var i :| 0 <= i < |Recency()| && Recency()[i] == q;
        }
      }
    }
  }
}
