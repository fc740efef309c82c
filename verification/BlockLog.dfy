/** The block log: an index file of fixed-size entries, one for each block number,
    and a blob file that is only ever appended to. */
module BlockLog {

  import opened Blocks
  import opened Commons

  datatype Block = Block(id: BlockId, body: seq<bv8>)

  datatype Entry = Entry(pos: nat, size: nat, id: BlockId)

  /** What the file system fills a gap in the index with. */
  const HOLE := Entry(0, 0, NO_ID)

  /** Writing entry `e` at position `n` of the index file. */
  function Written(index: seq<Entry>, n: nat, e: Entry): (r: seq<Entry>)
    ensures |r| == if n < |index| then |index| else n + 1
    ensures r[n] == e
    ensures forall k :: 0 <= k < |r| && k != n ==> r[k] == if k < |index| then index[k] else HOLE
  {
    if n < |index| then index[n := e] else index + seq(n - |index|, _ => HOLE) + [e]
  }

  function Data(blob: seq<bv8>, e: Entry): seq<bv8>
    requires e.pos + e.size <= |blob|
  {
    blob[e.pos..e.pos + e.size]
  }

  /** Live entries stand at their own number and point at a packed block. */
  ghost predicate EntryOk(unpack: seq<bv8> -> Option<Block>, blob: seq<bv8>, e: Entry, n: nat) {
    e.pos + e.size <= |blob| && (e.size > 0 ==> e.id.num == n && unpack(Data(blob, e)).Some?)
  }

  ghost predicate WellFormed(unpack: seq<bv8> -> Option<Block>, index: seq<Entry>, blob: seq<bv8>) {
    forall n: nat :: n < |index| ==> EntryOk(unpack, blob, index[n], n)
  }

  predicate Live(index: seq<Entry>, n: nat) {
    n < |index| && index[n].size > 0
  }

  /** What number `n` holds: the id it was stored under and the block. */
  ghost function Held(unpack: seq<bv8> -> Option<Block>, index: seq<Entry>, blob: seq<bv8>, n: nat): (BlockId, Block)
    requires WellFormed(unpack, index, blob) && Live(index, n)
  {
    (index[n].id, unpack(Data(blob, index[n])).value)
  }

  /** Appending a packed block and writing its entry. */
  lemma AppendKeeps(unpack: seq<bv8> -> Option<Block>, index: seq<Entry>, blob: seq<bv8>, data: seq<bv8>, key: BlockId)
    requires WellFormed(unpack, index, blob) && data != [] && unpack(data).Some?
    ensures var after := Written(index, key.num, Entry(|blob|, |data|, key));
      WellFormed(unpack, after, blob + data) && Live(after, key.num) &&
      Held(unpack, after, blob + data, key.num) == (key, unpack(data).value) &&
      forall n: nat :: n != key.num ==>
        Live(after, n) == Live(index, n) &&
        (Live(index, n) ==> Held(unpack, after, blob + data, n) == Held(unpack, index, blob, n))
  {
    var e := Entry(|blob|, |data|, key);
    var after := Written(index, key.num, e);
    assert Data(blob + data, e) == data;
    forall n: nat | n < |after| && n != key.num
      ensures EntryOk(unpack, blob + data, after[n], n)
      ensures n < |index| ==> Data(blob + data, index[n]) == Data(blob, index[n])
    {
      if n < |index| {
        assert EntryOk(unpack, blob, index[n], n);
        assert Data(blob + data, index[n]) == Data(blob, index[n]);
      }
    }
  }

  class BlockDatabase {
    /** Serialization; its inverse fails on empty data. */
    const pack: Block -> seq<bv8>
    const unpack: seq<bv8> -> Option<Block>

    var index: seq<Entry>
    var blob: seq<bv8>

    ghost predicate CodecOk() {
      unpack([]) == None && forall b :: pack(b) != [] && unpack(pack(b)) == Some(b)
    }

    ghost predicate Valid()
      reads this
    {
      CodecOk() && WellFormed(unpack, index, blob)
    }

    /** The log as a map from block number to the id it was stored under and the block. */
    ghost function View(): map<nat, (BlockId, Block)>
      requires Valid()
      reads this
    {
      map n: nat | n < |index| && Live(index, n) :: Held(unpack, index, blob, n)
    }

    constructor (pack: Block -> seq<bv8>, unpack: seq<bv8> -> Option<Block>)
      requires unpack([]) == None && forall b :: pack(b) != [] && unpack(pack(b)) == Some(b)
      ensures Valid() && View() == map[]
    {
      this.pack, this.unpack := pack, unpack;
      index, blob := [], [];
    }

    /** The id a block is stored under. */
    static function KeyFor(id: BlockId, b: Block): BlockId {
      if id == NO_ID then b.id else id
    }

    method Store(id: BlockId, b: Block)
      requires Valid()
      modifies this
      ensures Valid() && old(blob) <= blob
      ensures id != NO_ID ==> View() == old(View())[id.num := (id, b)]
      ensures id == NO_ID ==> View() == old(View())[b.id.num := (b.id, b)]
    {
      var key := KeyFor(id, b);
      var data := pack(b);
      var e := Entry(|blob|, |data|, key);
      AppendKeeps(unpack, index, blob, data, key);
      blob := blob + data;
      index := Written(index, key.num, e);
    }

    /** Fails when the number is beyond the index; otherwise kills the entry if the
        number still holds that id. */
    method Remove(id: BlockId) returns (ok: bool)
      requires Valid()
      modifies `index
      ensures Valid() && ok == (id.num < old(|index|))
      ensures View() == if id.num in old(View()) && old(View())[id.num].0 == id then old(View()) - {id.num}
                        else old(View())
      ensures |index| == old(|index|) && forall n :: 0 <= n < |index| ==> index[n].id == old(index[n].id)
    {
      if |index| <= id.num {
        return false;
      }
      var e := index[id.num];
      if e.id == id {
        index := index[id.num := e.(size := 0)];
      }
      ok := true;
    }

    method Contains(id: BlockId) returns (r: bool)
      requires Valid()
      ensures r <==> id != NO_ID && id.num in View() && View()[id.num].0 == id
    {
      if id == NO_ID || |index| <= id.num {
        return false;
      }
      var e := index[id.num];
      r := e.id == id && e.size > 0;
    }

    /** The id last stored under a number, whether or not it was removed since. */
    method FetchBlockId(num: nat) returns (r: Option<BlockId>)
      requires Valid() && num != 0
      ensures num in View() && View()[num].0 != NO_ID ==> r == Some(View()[num].0)
      ensures r.Some? <==> num < |index| && index[num].id != NO_ID
      ensures r.Some? ==> r.value == index[num].id
    {
      if |index| <= num || index[num].id == NO_ID {
        return None;
      }
      r := Some(index[num].id);
    }

    /** The block, if the number holds this id and the block's own id agrees. */
    method FetchOptional(id: BlockId) returns (r: Option<Block>)
      requires Valid()
      ensures r == if id.num in View() && View()[id.num] == (id, View()[id.num].1) && View()[id.num].1.id == id
                   then Some(View()[id.num].1) else None
    {
      if |index| <= id.num {
        return None;
      }
      var e := index[id.num];
      if e.id != id {
        return None;
      }
      r := Decode(e);
      if r.Some? && r.value.id != e.id {
        return None;
      }
    }

    method FetchByNumber(num: nat) returns (r: Option<Block>)
      requires Valid()
      ensures r == if num in View() && View()[num].1.id == View()[num].0 then Some(View()[num].1) else None
    {
      if |index| <= num {
        return None;
      }
      var e := index[num];
      r := Decode(e);
      if r.Some? && r.value.id != e.id {
        return None;
      }
    }

    /** Reading the bytes of an entry and unpacking them. */
    method Decode(e: Entry) returns (r: Option<Block>)
      requires Valid() && e in index
      ensures e.size == 0 ==> r == None
      ensures forall n: nat :: n < |index| && index[n] == e && Live(index, n) ==> n in View() && r == Some(View()[n].1)
    {
      assert forall n: nat :: n < |index| ==> EntryOk(unpack, blob, index[n], n);
      r := unpack(Data(blob, e));
      assert e.size == 0 ==> Data(blob, e) == [];
    }

    /** The backward scan of `last` and `last_id`: the highest live number. */
    method LastEntry() returns (n: Option<nat>)
      requires Valid()
      ensures n == None <==> View() == map[]
      ensures n.Some? ==> n.value in View() && forall k :: k in View() ==> k <= n.value
    {
      if |index| == 0 {
        return None;
      }
      var at := |index| - 1;
      var pos := |index|;
      while index[at].size == 0 && pos > 0
        invariant 0 <= pos <= |index| && at == (if pos == |index| then |index| - 1 else pos)
        invariant forall k :: pos <= k < |index| ==> index[k].size == 0 || k == at
        invariant forall k :: at < k < |index| ==> index[k].size == 0
        decreases pos
      {
        pos := pos - 1;
        at := pos;
      }
      if index[at].size == 0 {
        assert forall k :: k in View() ==> Live(index, k);
        return None;
      }
      assert Live(index, at) && at in View();
      n := Some(at);
    }

    method LastId() returns (r: Option<BlockId>)
      requires Valid()
      ensures r == None <==> View() == map[]
      ensures r.Some? ==> r.value.num in View() && View()[r.value.num].0 == r.value
      ensures r.Some? ==> forall k :: k in View() ==> k <= r.value.num
    {
      var n := LastEntry();
      if n == None {
        return None;
      }
      assert Live(index, n.value) && EntryOk(unpack, blob, index[n.value], n.value);
      r := Some(index[n.value].id);
    }

    method Last() returns (r: Option<Block>)
      requires Valid()
      ensures r == None <==> View() == map[]
      ensures r.Some? ==> exists n :: n in View() && r.value == View()[n].1 && forall k :: k in View() ==> k <= n
    {
      var n := LastEntry();
      if n == None {
        return None;
      }
      assert Live(index, n.value) && EntryOk(unpack, blob, index[n.value], n.value);
      r := unpack(Data(blob, index[n.value]));
      assert r.value == View()[n.value].1;
    }

    /** The loop of `reindex` at a gap: blocks are removed from the end until none is
        numbered above the gap. */
    method DropAfterGap(gap: nat)
      requires Valid()
      modifies `index
      ensures Valid()
      ensures View() == map n | n in old(View()) && n <= gap :: old(View())[n]
    {
      ghost var before := View();
      while true
        invariant Valid()
        invariant forall n :: n in View() ==> n in before && View()[n] == before[n]
        invariant forall n :: n in before && n <= gap ==> n in View()
        decreases |View()|
      {
        var last := LastId();
        if last == None {
          break;
        }
        if last.value.num <= gap {
          break;
        }
        ghost var v := View();
        var removed := Remove(last.value);
        assert View() == v - {last.value.num};
        assert |View()| < |v| by {
          SmallerMap(v, last.value.num);
        }
      }
    }
  }

  lemma SmallerMap<K, V>(m: map<K, V>, k: K)
    requires k in m
    ensures |m - {k}| < |m|
  {
    assert (m - {k}).Keys == m.Keys - {k};
  }

  // ----- Every sequence of changes -----

  datatype Change = Put(id: BlockId, block: Block) | Drop(id: BlockId)

  type Log = map<nat, (BlockId, Block)>

  /** What a store or a removal does to the map. */
  function Changed(log: Log, c: Change): Log {
    match c
    case Put(id, b) =>
      var key := BlockDatabase.KeyFor(id, b);
      log[key.num := (key, b)]
    case Drop(id) =>
      if id.num in log && log[id.num].0 == id then log - {id.num} else log
  }

  function ChangedAll(log: Log, cs: seq<Change>): Log {
    if cs == [] then log else Changed(ChangedAll(log, cs[..|cs| - 1]), cs[|cs| - 1])
  }

  /** Blocks are stored under their own id. */
  predicate OwnIds(cs: seq<Change>) {
    forall i :: 0 <= i < |cs| && cs[i].Put? ==> cs[i].id == NO_ID || cs[i].id == cs[i].block.id
  }

  ghost predicate Coherent(log: Log) {
    forall n :: n in log ==> log[n].0 == log[n].1.id && log[n].0.num == n
  }

  /** After any sequence of changes that stores blocks under their own ids, looking a
      block up by id, by number and asking whether it is there all agree. */
  lemma {:induction false} RunCoherent(cs: seq<Change>)
    requires OwnIds(cs)
    ensures Coherent(ChangedAll(map[], cs))
  {
    if cs != [] {
      RunCoherent(cs[..|cs| - 1]);
    }
  }

  /** The id that a store files its block under. */
  function FiledUnder(c: Change): BlockId
    requires c.Put?
  {
    if c.id != NO_ID then c.id else c.block.id
  }

  /** Change `i` stores a block under number `n`; no later one stores another there or removes
      its id. */
  predicate Survives(cs: seq<Change>, i: nat, n: nat) {
    i < |cs| && cs[i].Put? && FiledUnder(cs[i]).num == n &&
    forall j :: i < j < |cs| ==> (cs[j].Put? ==> FiledUnder(cs[j]).num != n) && cs[j] != Drop(FiledUnder(cs[i]))
  }

  lemma SurvivesLonger(cs: seq<Change>, c: Change, i: nat, n: nat)
    requires i < |cs|
    ensures Survives(cs + [c], i, n) <==>
      Survives(cs, i, n) && (c.Put? ==> FiledUnder(c).num != n) && c != Drop(FiledUnder(cs[i]))
  {
    var more := cs + [c];
    assert more[i] == cs[i];
    if Survives(more, i, n) {
      assert more[|cs|] == c;
      forall j | i < j < |cs|
        ensures (cs[j].Put? ==> FiledUnder(cs[j]).num != n) && cs[j] != Drop(FiledUnder(cs[i]))
      {
        assert more[j] == cs[j];
      }
    }
  }

  /** After any sequence of changes a number holds the block stored there last, unless that
      block's id has been removed since. */
  lemma {:induction false} HoldsLast(cs: seq<Change>, n: nat) returns (i: nat)
    ensures n in ChangedAll(map[], cs) <==> Survives(cs, i, n)
    ensures n !in ChangedAll(map[], cs) ==> forall k: nat :: !Survives(cs, k, n)
    ensures n in ChangedAll(map[], cs) ==> ChangedAll(map[], cs)[n] == (FiledUnder(cs[i]), cs[i].block)
  {
    if cs == [] {
      i := 0;
    } else {
      var m := |cs| - 1;
      var rest, c := cs[..m], cs[m];
      assert cs == rest + [c];
      i := HoldsLast(rest, n);
      forall k: nat | k < m
        ensures Survives(cs, k, n) <==>
          Survives(rest, k, n) && (c.Put? ==> FiledUnder(c).num != n) && c != Drop(FiledUnder(rest[k]))
      {
        SurvivesLonger(rest, c, k, n);
      }
      if c.Put? && FiledUnder(c).num == n {
        i := m;
      } else if n in ChangedAll(map[], rest) && n !in ChangedAll(map[], cs) {
        OneSurvivor(rest, i, n);
      }
    }
  }

  lemma OneSurvivor(cs: seq<Change>, i: nat, n: nat)
    requires Survives(cs, i, n)
    ensures forall k: nat :: Survives(cs, k, n) ==> k == i
  {
  }

  /** The log follows the map through every sequence of changes. */
  method Replay(log: BlockDatabase, cs: seq<Change>)
    requires log.Valid()
    modifies log
    ensures log.Valid() && log.View() == ChangedAll(old(log.View()), cs)
    ensures old(log.blob) <= log.blob
  {
    ghost var start := log.View();
    for i := 0 to |cs|
      invariant log.Valid() && log.View() == ChangedAll(start, cs[..i])
      invariant old(log.blob) <= log.blob
    {
      assert cs[..i + 1][..i] == cs[..i];
      match cs[i]
      case Put(id, b) =>
        log.Store(id, b);
      case Drop(id) =>
        var removed := log.Remove(id);
    }
    assert cs[..|cs|] == cs;
  }
}
