/** What a VectorIndex holds, as a value: per agent the entries in insertion order, which agent owns
    each id, and the non-empty contents.  The class is proved against these operations; here is what
    every run of them keeps, and why one block append is the same as adding its vectors one by one. */
module IndexSpec {
  import opened Assoc
  import opened VectorBackends

  type Agent = Option<string>

  datatype Index = Index(parts: Dict<Agent, Entries>, owner: map<string, Agent>, content: map<string, string>)

  const EMPTY := Index([], map[], map[])

  /** An agent's partition holds an id exactly when the agent owns it; no partition is empty; contents
      are kept for owned ids only. */
  ghost predicate Ok(ix: Index) {
    && PartsOk(ix.parts)
    && (forall agent, id :: Holds(ix.parts, agent, id) <==> Owned(ix.owner, id, agent))
    && (forall id :: id in ix.content ==> id in ix.owner && ix.content[id] != "")
  }

  ghost predicate PartsOk(parts: Dict<Agent, Entries>) {
    Distinct(parts) && forall i :: 0 <= i < |parts| ==> parts[i].1 != [] && Distinct(parts[i].1)
  }

  ghost predicate Owned(owner: map<string, Agent>, id: string, agent: Agent) {
    id in owner && owner[id] == agent
  }

  /** The agent's partition has an entry for the id. */
  predicate Holds(parts: Dict<Agent, Entries>, agent: Agent, id: string) {
    Has(PartOf(parts, agent), id)
  }

  /** An agent's entries; none when it has no partition. */
  function PartOf(parts: Dict<Agent, Entries>, agent: Agent): Entries {
    var i := Find(parts, agent);
    if i >= 0 then parts[i].1 else []
  }

  /** Drop an id from an agent's partition, and the partition with its last id. */
  function PartRemove(parts: Dict<Agent, Entries>, agent: Agent, id: string): Dict<Agent, Entries> {
    if !Has(parts, agent) then parts
    else
      var rest := Del(PartOf(parts, agent), id);
      if rest == [] then Del(parts, agent) else Put(parts, agent, rest)
  }

  function SetContent(content: map<string, string>, id: string, text: string): map<string, string> {
    if text != "" then content[id := text] else content - {id}
  }

  function AddVector(ix: Index, id: string, v: Vector, text: string, agent: Agent): Index {
    var parts := if id in ix.owner && ix.owner[id] != agent then PartRemove(ix.parts, ix.owner[id], id) else ix.parts;
    Index(Put(parts, agent, Put(PartOf(parts, agent), id, v)), ix.owner[id := agent], SetContent(ix.content, id, text))
  }

  function RemoveId(ix: Index, id: string): Index {
    if id !in ix.owner then ix
    else Index(PartRemove(ix.parts, ix.owner[id], id), ix.owner - {id}, ix.content - {id})
  }

  function ClearAgent(ix: Index, agent: Agent): Index {
    var gone := Keys(PartOf(ix.parts, agent));
    Index(Del(ix.parts, agent), ix.owner - gone, ix.content - gone)
  }

  /** Append a block of new ids to one agent's partition. */
  function AddBlock(ix: Index, block: Entries, agent: Agent): Index {
    Index(Put(ix.parts, agent, PartOf(ix.parts, agent) + block),
          OwnAll(ix.owner, block, agent), ix.content)
  }

  /** The agent becomes the owner of every id of the block. */
  function OwnAll(owner: map<string, Agent>, block: Entries, agent: Agent): map<string, Agent> {
    if block == [] then owner
    else OwnAll(owner, block[..|block| - 1], agent)[block[|block| - 1].0 := agent]
  }

  // ----- look-ups -----

  lemma PartOfPut(parts: Dict<Agent, Entries>, agent: Agent, es: Entries, other: Agent)
    requires Distinct(parts)
    ensures PartOf(Put(parts, agent, es), other) == if other == agent then es else PartOf(parts, other)
  {
    PutKeys(parts, agent, es);
    assert Get(Put(parts, agent, es), other) == if other == agent then Some(es) else Get(parts, other);
  }

  lemma PartOfDel(parts: Dict<Agent, Entries>, agent: Agent, other: Agent)
    requires Distinct(parts)
    ensures PartOf(Del(parts, agent), other) == if other == agent then [] else PartOf(parts, other)
  {
    DelDistinct(parts, agent);
    if other != agent {
      DelOther(parts, agent, other);
      assert Get(Del(parts, agent), other) == Get(parts, other);
    }
  }

  lemma PutPartsOk(parts: Dict<Agent, Entries>, agent: Agent, es: Entries)
    requires PartsOk(parts) && es != [] && Distinct(es)
    ensures PartsOk(Put(parts, agent, es))
  {
    PutKeys(parts, agent, es);
  }

  lemma DelPartsOk(parts: Dict<Agent, Entries>, agent: Agent)
    requires PartsOk(parts)
    ensures PartsOk(Del(parts, agent))
  {
    DelDistinct(parts, agent);
  }

  lemma PartOfOk(parts: Dict<Agent, Entries>, agent: Agent)
    requires PartsOk(parts)
    ensures Distinct(PartOf(parts, agent))
    ensures PartOf(parts, agent) == [] <==> !Has(parts, agent)
  {
  }

  lemma HasPut(es: Entries, id: string, v: Vector, other: string)
    requires Distinct(es)
    ensures Distinct(Put(es, id, v)) && Put(es, id, v) != []
    ensures Has(Put(es, id, v), other) <==> other == id || Has(es, other)
  {
    PutKeys(es, id, v);
    assert Get(Put(es, id, v), other) == if other == id then Some(v) else Get(es, other);
  }

  lemma HasDel(es: Entries, id: string, other: string)
    requires Distinct(es)
    ensures Distinct(Del(es, id))
    ensures Has(Del(es, id), other) <==> other != id && Has(es, other)
  {
    DelDistinct(es, id);
    if other != id {
      DelOther(es, id, other);
      assert Get(Del(es, id), other) == Get(es, other);
    } else {
      assert Get(Del(es, id), id) == None;
    }
  }

  lemma HoldsPut(parts: Dict<Agent, Entries>, agent: Agent, id: string, v: Vector, a: Agent, other: string)
    requires PartsOk(parts)
    ensures var parts' := Put(parts, agent, Put(PartOf(parts, agent), id, v));
      PartsOk(parts') && (Holds(parts', a, other) <==> (a == agent && other == id) || Holds(parts, a, other))
  {
    PartOfOk(parts, agent);
    var es := Put(PartOf(parts, agent), id, v);
    HasPut(PartOf(parts, agent), id, v, other);
    PutPartsOk(parts, agent, es);
    PartOfPut(parts, agent, es, a);
  }

  lemma HoldsRemove(parts: Dict<Agent, Entries>, agent: Agent, id: string, a: Agent, other: string)
    requires PartsOk(parts)
    ensures PartsOk(PartRemove(parts, agent, id))
    ensures Holds(PartRemove(parts, agent, id), a, other) <==> !(a == agent && other == id) && Holds(parts, a, other)
  {
    PartOfOk(parts, agent);
    if Has(parts, agent) {
      var rest := Del(PartOf(parts, agent), id);
      HasDel(PartOf(parts, agent), id, other);
      if rest == [] {
        DelPartsOk(parts, agent);
        PartOfDel(parts, agent, a);
      } else {
        PutPartsOk(parts, agent, rest);
        PartOfPut(parts, agent, rest, a);
      }
    }
  }

  // ----- what every operation keeps -----

  lemma AddKeeps(ix: Index, id: string, v: Vector, text: string, agent: Agent)
    requires Ok(ix)
    ensures Ok(AddVector(ix, id, v, text, agent))
    ensures Get(PartOf(AddVector(ix, id, v, text, agent).parts, agent), id) == Some(v)
  {
    hide Put, PartOf, PartRemove, Holds, Find;
    var moved := id in ix.owner && ix.owner[id] != agent;
    var parts := if moved then PartRemove(ix.parts, ix.owner[id], id) else ix.parts;
    var parts' := Put(parts, agent, Put(PartOf(parts, agent), id, v));
    if moved { HoldsRemove(ix.parts, ix.owner[id], id, agent, id); }
    HoldsPut(parts, agent, id, v, agent, id);
    forall a, other
      ensures Holds(parts', a, other) <==> Owned(ix.owner[id := agent], other, a)
    {
      if moved { HoldsRemove(ix.parts, ix.owner[id], id, a, other); }
      HoldsPut(parts, agent, id, v, a, other);
      assert Holds(ix.parts, a, other) <==> Owned(ix.owner, other, a);
    }
    PartOfOk(parts, agent);
    PutKeys(PartOf(parts, agent), id, v);
    PartOfPut(parts, agent, Put(PartOf(parts, agent), id, v), agent);
  }

  lemma RemoveKeeps(ix: Index, id: string)
    requires Ok(ix)
    ensures Ok(RemoveId(ix, id)) && id !in RemoveId(ix, id).owner
  {
    if id in ix.owner {
      HoldsRemove(ix.parts, ix.owner[id], id, ix.owner[id], id);
      forall a, other
        ensures Holds(PartRemove(ix.parts, ix.owner[id], id), a, other) <==> Owned(ix.owner - {id}, other, a)
      {
        HoldsRemove(ix.parts, ix.owner[id], id, a, other);
        assert Holds(ix.parts, a, other) <==> Owned(ix.owner, other, a);
      }
    }
  }

  lemma ClearKeeps(ix: Index, agent: Agent)
    requires Ok(ix)
    ensures Ok(ClearAgent(ix, agent)) && PartOf(ClearAgent(ix, agent).parts, agent) == []
  {
    var es, ix' := PartOf(ix.parts, agent), ClearAgent(ix, agent);
    PartOfDel(ix.parts, agent, agent);
    DelPartsOk(ix.parts, agent);
    forall a, other ensures Holds(ix'.parts, a, other) <==> Owned(ix'.owner, other, a) {
      PartOfDel(ix.parts, agent, a);
      assert Holds(ix.parts, a, other) <==> Owned(ix.owner, other, a);
      assert Holds(ix.parts, agent, other) <==> Owned(ix.owner, other, agent);
      InKeys(es, other);
    }
  }

  /** Ids are owned by exactly one agent, the one whose partition has them. */
  lemma OneOwner(ix: Index, id: string)
    requires Ok(ix)
    ensures id in ix.owner ==>
              exists i :: 0 <= i < |ix.parts| && ix.parts[i].0 == ix.owner[id] && Has(ix.parts[i].1, id)
    ensures forall i :: 0 <= i < |ix.parts| && Has(ix.parts[i].1, id) ==> Owned(ix.owner, id, ix.parts[i].0)
    ensures forall i, j :: 0 <= i < j < |ix.parts| ==> !(Has(ix.parts[i].1, id) && Has(ix.parts[j].1, id))
  {
    if id in ix.owner {
      assert Owned(ix.owner, id, ix.owner[id]) && Holds(ix.parts, ix.owner[id], id);
    }
    forall i | 0 <= i < |ix.parts| && Has(ix.parts[i].1, id) ensures Owned(ix.owner, id, ix.parts[i].0) {
      FindAt(ix.parts, i);
      assert Holds(ix.parts, ix.parts[i].0, id);
    }
  }

  // ----- a block append is the adds it stands for -----

  /** Add the block's vectors one at a time (without contents). */
  function AddEach(ix: Index, block: Entries, agent: Agent): Index {
    if block == [] then ix
    else
      var n := |block| - 1;
      AddVector(AddEach(ix, block[..n], agent), block[n].0, block[n].1, "", agent)
  }

  lemma {:induction false} EachKeeps(ix: Index, block: Entries, agent: Agent)
    requires Ok(ix)
    ensures Ok(AddEach(ix, block, agent))
  {
    if block != [] {
      var n := |block| - 1;
      EachKeeps(ix, block[..n], agent);
      AddKeeps(AddEach(ix, block[..n], agent), block[n].0, block[n].1, "", agent);
    }
  }

  /** Ids not indexed yet, each once. */
  ghost predicate FreshIds(ix: Index, block: Entries) {
    Distinct(block) && forall i :: 0 <= i < |block| ==> block[i].0 !in ix.owner
  }

  /** For ids that are distinct and not indexed yet, one append of the block is the same as adding
      its vectors one by one. */
  lemma {:induction false} BlockIsAdds(ix: Index, block: Entries, agent: Agent)
    requires Ok(ix) && FreshIds(ix, block) && block != []
    ensures AddBlock(ix, block, agent) == AddEach(ix, block, agent)
  {
    hide *;
    var n := |block| - 1;
    if n == 0 {
      assert block == [block[0]];
      FirstOfBlock(ix, block[0], agent);
    } else {
      FrontFresh(ix, block);
      BlockIsAdds(ix, block[..n], agent);
      EachKeeps(ix, block[..n], agent);
      LastNew(ix, block, agent);
      NextOfBlock(ix, block[..n], block[n], agent);
      assert block == block[..n] + [block[n]];
    }
  }

  lemma FrontFresh(ix: Index, block: Entries)
    requires Ok(ix) && FreshIds(ix, block) && block != []
    ensures FreshIds(ix, block[..|block| - 1]) && Distinct(ix.parts)
  {
  }

  lemma LastNew(ix: Index, block: Entries, agent: Agent)
    requires FreshIds(ix, block) && block != []
    ensures block[|block| - 1].0 !in AddBlock(ix, block[..|block| - 1], agent).owner
  {
    var n := |block| - 1;
    OwnedAfter(ix.owner, block[..n], agent, block[n].0);
    LastOnce(block);
    hide OwnAll, Has, Distinct;
  }

  lemma FirstOfBlock(ix: Index, e: (string, Vector), agent: Agent)
    requires Ok(ix) && FreshIds(ix, [e])
    ensures AddBlock(ix, [e], agent) == AddEach(ix, [e], agent)
  {
    assert [e][0].0 !in ix.owner;
    NewEntry(ix, e, agent);
    assert [e][..0] == [];
    assert AddEach(ix, [e][..0], agent) == ix;
    assert OwnAll(ix.owner, [e][..0], agent) == ix.owner;
  }

  lemma NextOfBlock(ix: Index, block: Entries, e: (string, Vector), agent: Agent)
    requires Distinct(ix.parts) && Ok(AddBlock(ix, block, agent)) && e.0 !in AddBlock(ix, block, agent).owner
    requires AddBlock(ix, block, agent) == AddEach(ix, block, agent)
    ensures AddBlock(ix, block + [e], agent) == AddEach(ix, block + [e], agent)
  {
    hide Put, PartOf, Find, AddVector, Ok;
    assert (block + [e])[..|block|] == block;
    NewEntry(AddBlock(ix, block, agent), e, agent);
    AppendParts(ix.parts, agent, block, e);
    assert PartOf(ix.parts, agent) + (block + [e]) == PartOf(ix.parts, agent) + block + [e];
  }

  lemma LastOnce(block: Entries)
    requires Distinct(block) && block != []
    ensures !Has(block[..|block| - 1], block[|block| - 1].0)
  {
  }

  lemma AppendParts(parts: Dict<Agent, Entries>, agent: Agent, block: Entries, e: (string, Vector))
    requires Distinct(parts)
    ensures var es := PartOf(parts, agent); var mid := Put(parts, agent, es + block);
      Put(mid, agent, PartOf(mid, agent) + [e]) == Put(parts, agent, es + block + [e])
  {
    var es := PartOf(parts, agent);
    PartOfPut(parts, agent, es + block, agent);
    PutTwice(parts, agent, es + block, es + block + [e]);
  }

  lemma {:induction false} OwnedAfter(owner: map<string, Agent>, block: Entries, agent: Agent, id: string)
    ensures id in OwnAll(owner, block, agent) <==> id in owner || Has(block, id)
    ensures id in OwnAll(owner, block, agent) ==>
              OwnAll(owner, block, agent)[id] == if Has(block, id) then agent else owner[id]
  {
    if block != [] {
      var n := |block| - 1;
      OwnedAfter(owner, block[..n], agent, id);
      assert block == block[..n] + [block[n]];
      var i := Find(block, id);
      assert i >= 0 && i < n ==> block[..n][i].0 == id;
      var j := Find(block[..n], id);
      assert j >= 0 ==> block[j].0 == id;
    }
  }

  lemma NewEntry(ix: Index, e: (string, Vector), agent: Agent)
    requires Ok(ix) && e.0 !in ix.owner
    ensures AddVector(ix, e.0, e.1, "", agent)
         == Index(Put(ix.parts, agent, PartOf(ix.parts, agent) + [e]), ix.owner[e.0 := agent], ix.content)
  {
    assert !Holds(ix.parts, agent, e.0) by { assert !Owned(ix.owner, e.0, agent); }
    assert ix.content - {e.0} == ix.content;
  }

  lemma PutTwice(parts: Dict<Agent, Entries>, agent: Agent, es: Entries, es': Entries)
    requires Distinct(parts)
    ensures Put(Put(parts, agent, es), agent, es') == Put(parts, agent, es')
  {
    PutKeys(parts, agent, es);
    var mid := Put(parts, agent, es);
    var i := Find(parts, agent);
    FindAt(mid, if i >= 0 then i else |parts|);
  }
}
