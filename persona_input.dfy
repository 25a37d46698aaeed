/**
 * The traveller list of `PersonaInput`: the personas, the next fresh id and
 * the id of the persona being edited, kept in three state cells that its
 * handlers update. Avatar colours are not modelled.
 */
module PersonaInput {
  import opened Wrappers
  import opened Text
  import opened Trip

  /** The persona the component starts with. */
  const DefaultPersona := Persona(1, "Traveler 1", "medium", 5, ["History", "Food"])

  /** The persona `addPersona` appends when the fresh id is `id`. */
  function NewPersona(id: int): (p: Persona)
    ensures p.id == id && p.interests == []
  {
    Persona(id, "Traveler " + IntToString(id), "medium", 5, [])
  }

  /** The new persona's name is "Traveler " followed by its id in decimal. */
  lemma NewPersonaName(id: int)
    ensures var name := NewPersona(id).name;
            |name| > 9 && name[..9] == "Traveler " && ParseInt(name[9..]) == id
  {
    var name := NewPersona(id).name;
    assert name[9..] == IntToString(id);
    IntToStringRoundTrip(id);
  }

  /** Some persona carries `id`. */
  predicate HasId(ps: seq<Persona>, id: int) {
    exists i :: 0 <= i < |ps| && ps[i].id == id
  }

  /** No two personas share an id. */
  ghost predicate DistinctIds(ps: seq<Persona>) {
    forall i, j :: 0 <= i < j < |ps| ==> ps[i].id != ps[j].id
  }

  /** Every id is below `bound`. */
  ghost predicate IdsBelow(ps: seq<Persona>, bound: int) {
    forall i :: 0 <= i < |ps| ==> ps[i].id < bound
  }

  /** `ps.filter(p => p.id !== id)`. */
  function RemoveId(ps: seq<Persona>, id: int): (r: seq<Persona>)
    ensures |r| <= |ps|
    decreases |ps|
  {
    if |ps| == 0 then []
    else (if ps[0].id == id then [] else [ps[0]]) + RemoveId(ps[1..], id)
  }

  /** What survives a removal: exactly the personas with another id. */
  lemma {:induction false} RemoveIdMembers(ps: seq<Persona>, id: int)
    ensures forall p :: p in RemoveId(ps, id) <==> p in ps && p.id != id
    decreases |ps|
  {
    if |ps| > 0 {
      RemoveIdMembers(ps[1..], id);
      assert ps == [ps[0]] + ps[1..];
    }
  }

  /** Filtering distributes over concatenation. */
  lemma {:induction false} RemoveIdAppend(a: seq<Persona>, b: seq<Persona>, id: int)
    ensures RemoveId(a + b, id) == RemoveId(a, id) + RemoveId(b, id)
    decreases |a|
  {
    if |a| > 0 {
      assert (a + b)[1..] == a[1..] + b;
      RemoveIdAppend(a[1..], b, id);
      var head := if a[0].id == id then [] else [a[0]];
      AppendAssoc(head, RemoveId(a[1..], id), RemoveId(b, id));
    } else {
      assert a + b == b;
    }
  }

  /** Removing an id nobody has changes nothing. */
  lemma {:induction false} RemoveAbsentId(ps: seq<Persona>, id: int)
    requires !HasId(ps, id)
    ensures RemoveId(ps, id) == ps
    decreases |ps|
  {
    if |ps| > 0 {
      assert forall i | 0 <= i < |ps[1..]| :: ps[1..][i] == ps[i + 1];
      RemoveAbsentId(ps[1..], id);
      assert [ps[0]] + ps[1..] == ps;
    }
  }

  /** Dropping one persona keeps the ids distinct. */
  lemma DropKeepsDistinct(ps: seq<Persona>, k: nat)
    requires k < |ps| && DistinctIds(ps)
    ensures DistinctIds(ps[..k] + ps[k + 1..])
  {
    var r := ps[..k] + ps[k + 1..];
    assert forall i | 0 <= i < |r| :: r[i] == if i < k then ps[i] else ps[i + 1];
  }

  /** With distinct ids, the id of `ps[k]` occurs neither before nor after position `k`. */
  lemma IdOnlyAt(ps: seq<Persona>, k: nat)
    requires k < |ps| && DistinctIds(ps)
    ensures !HasId(ps[..k], ps[k].id) && !HasId(ps[k + 1..], ps[k].id)
  {
    var front, back := ps[..k], ps[k + 1..];
    forall i | 0 <= i < |front| ensures front[i].id != ps[k].id {
      assert front[i] == ps[i];
    }
    forall i | 0 <= i < |back| ensures back[i].id != ps[k].id {
      assert back[i] == ps[k + 1 + i];
    }
  }

  /** Removing an id from a single persona that has it leaves nothing. */
  lemma RemoveIdSingle(p: Persona)
    ensures RemoveId([p], p.id) == []
  {
    assert [p][1..] == [];
  }

  /** Removing the id of `p` from `front + [p] + back`, where only `p` has it, leaves `front + back`. */
  lemma RemoveIdSplice(front: seq<Persona>, p: Persona, back: seq<Persona>)
    requires !HasId(front, p.id) && !HasId(back, p.id)
    ensures RemoveId(front + [p] + back, p.id) == front + back
  {
    RemoveIdAppend(front + [p], back, p.id);
    RemoveIdAppend(front, [p], p.id);
    RemoveAbsentId(front, p.id);
    RemoveAbsentId(back, p.id);
    RemoveIdSingle(p);
    assert front + [] == front;
  }

  /** With distinct ids, removing the id of `ps[k]` removes exactly position `k`, keeping the order of the rest. */
  lemma RemoveIdAt(ps: seq<Persona>, k: nat)
    requires k < |ps| && DistinctIds(ps)
    ensures RemoveId(ps, ps[k].id) == ps[..k] + ps[k + 1..]
  {
    assert ps == ps[..k] + [ps[k]] + ps[k + 1..];
    IdOnlyAt(ps, k);
    RemoveIdSplice(ps[..k], ps[k], ps[k + 1..]);
  }

  /** Removing by id keeps the ids distinct. */
  lemma RemoveIdDistinct(ps: seq<Persona>, id: int)
    requires DistinctIds(ps)
    ensures DistinctIds(RemoveId(ps, id))
  {
    if HasId(ps, id) {
      var k :| 0 <= k < |ps| && ps[k].id == id;
      RemoveIdAt(ps, k);
      DropKeepsDistinct(ps, k);
    } else {
      RemoveAbsentId(ps, id);
    }
  }

  /** Removing keeps every id below a bound that was above them all. */
  lemma RemoveIdKeepsBelow(ps: seq<Persona>, id: int, bound: int)
    requires IdsBelow(ps, bound)
    ensures IdsBelow(RemoveId(ps, id), bound)
  {
    var r := RemoveId(ps, id);
    RemoveIdMembers(ps, id);
    forall i | 0 <= i < |r| ensures r[i].id < bound {
      assert r[i] in ps;
    }
  }

  /** Removing one id keeps every other id that was there. */
  lemma RemoveIdKeepsOthers(ps: seq<Persona>, id: int, other: int)
    requires HasId(ps, other) && other != id
    ensures HasId(RemoveId(ps, id), other)
  {
    var k :| 0 <= k < |ps| && ps[k].id == other;
    RemoveIdMembers(ps, id);
    var r := RemoveId(ps, id);
    assert ps[k] in r;
    var i :| 0 <= i < |r| && r[i] == ps[k];
  }

  /** With distinct ids, two or more personas leave at least one after a removal. */
  lemma RemoveIdLeavesOne(ps: seq<Persona>, id: int)
    requires DistinctIds(ps) && |ps| >= 2
    ensures |RemoveId(ps, id)| >= 1
  {
    if HasId(ps, id) {
      var k :| 0 <= k < |ps| && ps[k].id == id;
      RemoveIdAt(ps, k);
    } else {
      RemoveAbsentId(ps, id);
    }
  }

  /** A change `updatePersona` makes to one field, as the form's inputs make it. */
  datatype PersonaEdit =
    | SetName(name: string)
    | SetBudget(budget: string)
    | SetEnergy(energy: int)
    | SetInterests(interests: seq<string>)

  /** `{...p, [field]: value}`. */
  function Apply(p: Persona, e: PersonaEdit): (q: Persona)
    ensures q.id == p.id
  {
    match e
    case SetName(v) => p.(name := v)
    case SetBudget(v) => p.(budget := v)
    case SetEnergy(v) => p.(energy := v)
    case SetInterests(v) => p.(interests := v)
  }

  /** `ps.map(p => p.id === id ? {...p, [field]: value} : p)`. */
  function UpdateId(ps: seq<Persona>, id: int, e: PersonaEdit): (r: seq<Persona>)
    ensures |r| == |ps|
    ensures forall i :: 0 <= i < |ps| ==> r[i] == if ps[i].id == id then Apply(ps[i], e) else ps[i]
  {
    seq(|ps|, i requires 0 <= i < |ps| => if ps[i].id == id then Apply(ps[i], e) else ps[i])
  }

  /** An update changes only the edited field of the matching personas: ids, and every other field, stay. */
  lemma UpdateIdFrame(ps: seq<Persona>, id: int, e: PersonaEdit)
    ensures var r := UpdateId(ps, id, e);
            forall i :: 0 <= i < |ps| ==>
              && r[i].id == ps[i].id
              && (e.SetName? || r[i].name == ps[i].name)
              && (e.SetBudget? || r[i].budget == ps[i].budget)
              && (e.SetEnergy? || r[i].energy == ps[i].energy)
              && (e.SetInterests? || r[i].interests == ps[i].interests)
              && (ps[i].id == id && e.SetName? ==> r[i].name == e.name)
              && (ps[i].id == id && e.SetBudget? ==> r[i].budget == e.budget)
              && (ps[i].id == id && e.SetEnergy? ==> r[i].energy == e.energy)
              && (ps[i].id == id && e.SetInterests? ==> r[i].interests == e.interests)
  {
  }

  /** An update keeps the ids where they were, so distinctness, the bound and every id present are kept. */
  lemma UpdateIdKeepsIds(ps: seq<Persona>, id: int, e: PersonaEdit, bound: int, present: int)
    requires DistinctIds(ps) && IdsBelow(ps, bound) && HasId(ps, present)
    ensures var r := UpdateId(ps, id, e);
            DistinctIds(r) && IdsBelow(r, bound) && HasId(r, present)
  {
    var r := UpdateId(ps, id, e);
    assert forall i | 0 <= i < |ps| :: r[i].id == ps[i].id;
    var k :| 0 <= k < |ps| && ps[k].id == present;
    assert r[k].id == present;
  }

  /** `ps.findIndex(p => p.id === id)`: the position of the first persona with that id. */
  function FindIndex(ps: seq<Persona>, id: int): (r: Option<nat>)
    ensures r.Some? ==> r.value < |ps| && ps[r.value].id == id
    ensures r.Some? ==> forall j :: 0 <= j < r.value ==> ps[j].id != id
    ensures r.None? ==> !HasId(ps, id)
    decreases |ps|
  {
    if |ps| == 0 then None
    else if ps[0].id == id then Some(0)
    else
      match FindIndex(ps[1..], id)
      case None =>
        assert forall i | 1 <= i < |ps| :: ps[i] == ps[1..][i - 1];
        None
      case Some(k) =>
        assert forall j | 1 <= j < k + 1 :: ps[j] == ps[1..][j - 1];
        Some(k + 1)
  }

  /** `personas.find(p => p.id === activePersona) || personas[0]`. */
  function ActiveOf(ps: seq<Persona>, activeId: int): (r: Persona)
    requires |ps| >= 1
    ensures r in ps
    ensures HasId(ps, activeId) ==> r.id == activeId
    ensures !HasId(ps, activeId) ==> r == ps[0]
  {
    match FindIndex(ps, activeId)
    case Some(k) => ps[k]
    case None => ps[0]
  }

  /** With distinct ids the active persona is the one and only persona with the active id. */
  lemma ActiveUnique(ps: seq<Persona>, activeId: int, k: nat)
    requires |ps| >= 1 && DistinctIds(ps) && k < |ps| && ps[k].id == activeId
    ensures ActiveOf(ps, activeId) == ps[k]
  {
    var r := ActiveOf(ps, activeId);
    var i :| 0 <= i < |ps| && ps[i] == r;
    assert ps[i].id == ps[k].id;
  }

  class PersonaList {
    var personas: seq<Persona>
    var nextId: int
    var activeId: int

    /** The list is never empty, ids are distinct and fresh ones lie above them, and the active id names a persona. */
    ghost predicate Valid()
      reads this
    {
      && |personas| >= 1
      && DistinctIds(personas)
      && IdsBelow(personas, nextId)
      && HasId(personas, activeId)
    }

    /** The initial state: the default persona, the next id 2, the default persona active. */
    constructor ()
      ensures personas == [DefaultPersona] && nextId == 2 && activeId == 1
      ensures Valid()
    {
      personas := [DefaultPersona];
      nextId := 2;
      activeId := DefaultPersona.id;
      new;
      assert personas[0].id == 1;
    }

    /** `addPersona`: append a fresh persona, make it active, advance the counter. */
    method AddPersona()
      requires Valid()
      modifies this
      ensures personas == old(personas) + [NewPersona(old(nextId))]
      ensures activeId == old(nextId) && nextId == old(nextId) + 1
      ensures Valid()
    {
      var p := NewPersona(nextId);
      personas := personas + [p];
      activeId := p.id;
      nextId := nextId + 1;
      assert personas[|personas| - 1] == p;
    }

    /**
     * `removePersona(id)`: nothing happens to a list of one; otherwise the
     * personas with that id go, and if the active one went, the first left
     * becomes active.
     */
    method RemovePersona(id: int)
      requires Valid()
      modifies this
      ensures Valid()
      ensures |old(personas)| <= 1 ==> personas == old(personas) && activeId == old(activeId)
      ensures |old(personas)| > 1 ==> personas == RemoveId(old(personas), id)
      ensures |old(personas)| > 1 ==>
                activeId == if old(activeId) == id then personas[0].id else old(activeId)
      ensures nextId == old(nextId)
    {
      if |personas| <= 1 {
        return;
      }
      var remaining := RemoveId(personas, id);
      RemoveIdLeavesOne(personas, id);
      RemoveIdDistinct(personas, id);
      RemoveIdKeepsBelow(personas, id, nextId);
      if activeId != id {
        RemoveIdKeepsOthers(personas, id, activeId);
      }
      personas := remaining;
      if activeId == id {
        activeId := remaining[0].id;
        assert HasId(personas, activeId) by { assert personas[0].id == activeId; }
      }
    }

    /** `updatePersona(id, field, value)`. */
    method UpdatePersona(id: int, e: PersonaEdit)
      requires Valid()
      modifies this
      ensures personas == UpdateId(old(personas), id, e)
      ensures nextId == old(nextId) && activeId == old(activeId)
      ensures Valid()
    {
      UpdateIdKeepsIds(personas, id, e, nextId, activeId);
      personas := UpdateId(personas, id, e);
    }

    /** A click on a persona's avatar makes it the active one. */
    method SelectPersona(id: int)
      requires Valid() && HasId(personas, id)
      modifies this
      ensures activeId == id && personas == old(personas) && nextId == old(nextId)
      ensures Valid()
    {
      activeId := id;
    }

    /** `getActivePersona()`. */
    function ActivePersona(): (r: Persona)
      requires Valid()
      reads this
      ensures r in personas && r.id == activeId
    {
      ActiveOf(personas, activeId)
    }
  }
}
