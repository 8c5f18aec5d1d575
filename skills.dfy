/** The skill-tree state: raw entries classified into root types, skills and
    specialisations; training and wiping with their guards; trained-entry
    bindings; per-entry modifier registries; and the total a skill check
    uses. Every entry is addressed by its integer key. */
module Skills {
  import opened Wrappers

  // ---------------------------------------------------------------------
  // Ordered keys

  predicate StrictlySorted(s: seq<int>)
  {
    forall i, j | 0 <= i < j < |s| :: s[i] < s[j]
  }

  lemma IntSetInhabited(s: set<int>)
    requires s != {}
    ensures exists x :: x in s
  {
    if forall x :: x !in s {
      assert false;
    }
  }

  predicate IsLeast(m: int, s: set<int>)
  {
    m in s && forall x | x in s :: m <= x
  }

  lemma {:induction false} MinExists(s: set<int>)
    requires s != {}
    ensures exists m :: IsLeast(m, s)
    decreases s
  {
    IntSetInhabited(s);
    var x :| x in s;
    var rest := s - {x};
    if rest == {} {
      assert IsLeast(x, s) by {
        forall y | y in s
          ensures x <= y
        {
          assert y == x || y in rest;
        }
      }
    } else {
      MinExists(rest);
      var m :| IsLeast(m, rest);
      var least := if m < x then m else x;
      assert IsLeast(least, s) by {
        forall y | y in s
          ensures least <= y
        {
          assert y == x || y in rest;
        }
      }
    }
  }

  /** The least key of a non-empty set. */
  function MinOf(s: set<int>): (m: int)
    requires s != {}
    ensures m in s && forall x | x in s :: m <= x
  {
    MinExists(s);
    var m :| IsLeast(m, s);
    m
  }

  /** `Object.keys` of an object with integer keys: ascending order. */
  function SortedKeys(s: set<int>): (r: seq<int>)
    ensures StrictlySorted(r)
    ensures forall x :: x in r <==> x in s
    ensures |r| == |s|
    decreases |s|
  {
    if s == {} then []
    else
      var m := MinOf(s);
      var rest := SortedKeys(s - {m});
      assert forall x | x in rest :: m < x;
      [m] + rest
  }

  /** `Array.prototype.filter`: the elements satisfying `keep`, in order. */
  function Select(xs: seq<int>, keep: int -> bool): (r: seq<int>)
    ensures forall x :: x in r <==> x in xs && keep(x)
    ensures |r| <= |xs|
    ensures StrictlySorted(xs) ==> StrictlySorted(r)
    decreases |xs|
  {
    if xs == [] then []
    else
      var rest := Select(xs[1..], keep);
      if keep(xs[0]) then
        var r := [xs[0]] + rest;
        assert StrictlySorted(xs) ==> StrictlySorted(r) by {
          if StrictlySorted(xs) {
            assert StrictlySorted(xs[1..]);
            forall i, j | 0 <= i < j < |r|
              ensures r[i] < r[j]
            {
              if i == 0 {
                assert r[j] == rest[j - 1] && rest[j - 1] in rest;
                var k :| 0 <= k < |xs[1..]| && xs[1..][k] == r[j];
                assert xs[k + 1] == r[j];
              }
            }
          }
        }
        r
      else rest
  }

  // ---------------------------------------------------------------------
  // Entities

  /** What a modifier is evaluated against (the `usage` argument). */
  type Usage = string

  /** How `processData` classified a key in `state.index`. */
  datatype Kind = Root | SkillKind | SpecKind

  datatype IndexEntry = IndexEntry(kind: Kind, name: string)

  /** An entry of the raw skills table. A missing `rank` or `slots` reads
      as 0 and a missing or falsy `trained` as false. */
  datatype RawEntry = RawEntry(parent: int, name: string, trained: bool, rank: int, slots: int)

  /** A skill or specialisation record; `typeName` is `state.types[parent]`,
      None where that is undefined. */
  datatype Entry = Entry(id: int, name: string, parent: int, typeName: Option<string>,
                         trained: bool, rank: int, slots: int)

  /** A registered modifier: its id and the function of the usage it adds. */
  datatype Modifier = Modifier(id: string, amount: Usage -> int)

  /** The `mod` argument of `addModifier`: a function, or any other value,
      which is wrapped into a function returning it. */
  datatype ModArg = Computed(f: Usage -> int) | Constant(value: int)

  /** Slots needed to train the next rank, indexed by the current rank. */
  const TrainableSlotsSkill: seq<int> := [1, 2, 4, 6, 10, -1]
  const TrainableSlotsSpec: seq<int> := [5, 10, 15, -1]

  /** A record built by `processData`: `trained` is the raw flag and `rank`
      and `slots` are clamped at 0. */
  function MakeEntry(key: int, d: RawEntry, typeName: Option<string>): (e: Entry)
    ensures e.id == key && e.name == d.name && e.parent == d.parent && e.typeName == typeName
    ensures e.trained == d.trained
    ensures e.rank >= 0 && e.slots >= 0
    ensures e.rank == d.rank || (d.rank < 0 && e.rank == 0)
    ensures e.slots == d.slots || (d.slots < 0 && e.slots == 0)
  {
    Entry(key, d.name, d.parent, typeName, d.trained,
          if d.rank > 0 then d.rank else 0, if d.slots > 0 then d.slots else 0)
  }

  /** A record with its training removed. */
  function Wiped(e: Entry): Entry
  {
    e.(trained := false, rank := 0, slots := 0)
  }

  // ---------------------------------------------------------------------
  // Classification of the raw table

  /** The `type` field `processData` gives a record: the name of its parent
      in the root types table. A skill's parent is always there; a spec's
      parent is a skill, so normally the lookup finds nothing. */
  function TypeNameOf(parent: int, types: map<int, string>): Option<string>
  {
    if parent in types then Some(types[parent]) else None
  }

  /** Whether the entry's parent is a key of `m`. */
  predicate ParentIn(e: RawEntry, m: set<int>)
  {
    e.parent in m
  }

  /** The classification `processData` leaves behind for the raw table:
      roots are the entries with parent 0, skills the entries whose parent is
      a root, specs the entries whose parent is a skill; the index records
      the last pass that claimed a key. */
  ghost predicate ClassifiedAs(raw: map<int, RawEntry>, index: map<int, IndexEntry>, types: map<int, string>,
                               skills: map<int, Entry>, specs: map<int, Entry>)
  {
    && (forall k :: k in types <==> k in raw && ParentIn(raw[k], {0}))
    && (forall k | k in types :: types[k] == raw[k].name)
    && (forall k :: k in skills <==> k in raw && ParentIn(raw[k], types.Keys))
    && (forall k | k in skills :: skills[k] == MakeEntry(k, raw[k], TypeNameOf(raw[k].parent, types)))
    && (forall k :: k in specs <==> k in raw && ParentIn(raw[k], skills.Keys))
    && (forall k | k in specs :: specs[k] == MakeEntry(k, raw[k], TypeNameOf(raw[k].parent, types)))
    && (forall k :: k in index <==> k in types || k in skills || k in specs)
    && (forall k | k in index ::
          index[k] == IndexEntry(if k in specs then SpecKind else if k in skills then SkillKind else Root,
                                 raw[k].name))
  }

  // ---------------------------------------------------------------------
  // Modifier lists

  predicate HasId(ms: seq<Modifier>, id: string)
  {
    exists i | 0 <= i < |ms| :: ms[i].id == id
  }

  predicate UniqueIds(ms: seq<Modifier>)
  {
    forall i, j | 0 <= i < j < |ms| :: ms[i].id != ms[j].id
  }

  lemma HasIdCons(m: Modifier, ms: seq<Modifier>, x: string)
    ensures HasId([m] + ms, x) <==> m.id == x || HasId(ms, x)
  {
    var r := [m] + ms;
    if HasId(ms, x) {
      var i :| 0 <= i < |ms| && ms[i].id == x;
      assert r[i + 1].id == x;
    }
    if HasId(r, x) && m.id != x {
      var i :| 0 <= i < |r| && r[i].id == x;
      assert ms[i - 1].id == x;
    }
    assert r[0] == m;
  }

  lemma UniqueCons(m: Modifier, ms: seq<Modifier>)
    ensures UniqueIds([m] + ms) <==> !HasId(ms, m.id) && UniqueIds(ms)
  {
    var r := [m] + ms;
    if UniqueIds(r) {
      forall i, j | 0 <= i < j < |ms|
        ensures ms[i].id != ms[j].id
      {
        assert r[i + 1] == ms[i] && r[j + 1] == ms[j];
      }
      forall i | 0 <= i < |ms|
        ensures ms[i].id != m.id
      {
        assert r[i + 1] == ms[i] && r[0] == m;
      }
    }
    if !HasId(ms, m.id) && UniqueIds(ms) {
      forall i, j | 0 <= i < j < |r|
        ensures r[i].id != r[j].id
      {
        assert r[j] == ms[j - 1];
        if i > 0 {
          assert r[i] == ms[i - 1];
        }
      }
    }
  }

  /** `delete modifiers[skill][id]`: the list without the entry for `id`. */
  function Without(ms: seq<Modifier>, id: string): (r: seq<Modifier>)
    ensures !HasId(r, id)
    ensures forall other | other != id :: HasId(r, other) <==> HasId(ms, other)
    ensures UniqueIds(ms) ==> UniqueIds(r)
    ensures UniqueIds(ms) && HasId(ms, id) ==> |r| == |ms| - 1
    ensures !HasId(ms, id) ==> r == ms
    decreases |ms|
  {
    if ms == [] then []
    else
      var rest := Without(ms[1..], id);
      assert ms == [ms[0]] + ms[1..];
      UniqueCons(ms[0], ms[1..]);
      assert forall x :: HasId(ms, x) <==> ms[0].id == x || HasId(ms[1..], x) by {
        forall x {
          HasIdCons(ms[0], ms[1..], x);
        }
      }
      if ms[0].id == id then rest
      else
        var r := [ms[0]] + rest;
        UniqueCons(ms[0], rest);
        assert forall x :: HasId(r, x) <==> ms[0].id == x || HasId(rest, x) by {
          forall x {
            HasIdCons(ms[0], rest, x);
          }
        }
        r
  }

  /** Adding a modifier under a fresh id and then removing it restores the list. */
  lemma {:induction false} WithoutAppended(ms: seq<Modifier>, m: Modifier)
    requires !HasId(ms, m.id)
    ensures Without(ms + [m], m.id) == ms
    decreases |ms|
  {
    if ms == [] {
      assert Without([m], m.id) == Without([m][1..], m.id);
    } else {
      assert (ms + [m])[0] == ms[0] && (ms + [m])[1..] == ms[1..] + [m];
      assert !HasId(ms[1..], m.id) by {
        forall i | 0 <= i < |ms[1..]|
          ensures ms[1..][i].id != m.id
        {
          assert ms[1..][i] == ms[i + 1];
        }
      }
      WithoutAppended(ms[1..], m);
      assert ms[0].id != m.id;
      assert ms == [ms[0]] + ms[1..];
    }
  }

  lemma AppendKeepsUnique(ms: seq<Modifier>, m: Modifier)
    requires UniqueIds(ms) && !HasId(ms, m.id)
    ensures UniqueIds(ms + [m]) && HasId(ms + [m], m.id)
  {
    var r := ms + [m];
    assert r[|ms|].id == m.id;
    forall i, j | 0 <= i < j < |r|
      ensures r[i].id != r[j].id
    {
      assert r[i] == ms[i];
      if j < |ms| {
        assert r[j] == ms[j];
      }
    }
  }

  /** The function a stored modifier computes. */
  function AsFunction(mod: ModArg): (f: Usage -> int)
    ensures mod.Computed? ==> f == mod.f
    ensures mod.Constant? ==> forall u :: f(u) == mod.value
  {
    match mod
    case Computed(g) => g
    case Constant(c) => (u: Usage) => c
  }

  // ---------------------------------------------------------------------
  // Totals

  /** `diminishingBonus`: bonus up to 4 counts in full, beyond that at half
      rate, rounded down. */
  function DiminishingBonus(bonus: int): (r: int)
    ensures bonus < 4 ==> r == bonus
    ensures bonus >= 4 ==> 4 <= r && 2 * (r - 4) <= bonus - 4 < 2 * (r - 4) + 2
  {
    if bonus < 4 then bonus else 4 + (bonus - 4) / 2
  }

  /** The diminished bonus never exceeds the raw bonus, is never negative
      for a non-negative bonus, and grows with it. */
  lemma DiminishingBonusBounds(a: int, b: int)
    ensures DiminishingBonus(b) <= b
    ensures b >= 0 ==> DiminishingBonus(b) >= 0
    ensures a <= b ==> DiminishingBonus(a) <= DiminishingBonus(b)
    ensures a <= b ==> DiminishingBonus(b) - DiminishingBonus(a) <= b - a
  {
  }

  /** Two more raw points past 4 buy exactly one more point. */
  lemma DiminishingBonusStep(b: int)
    requires b >= 4
    ensures DiminishingBonus(b + 2) == DiminishingBonus(b) + 1
  {
  }

  /** The sum of the non-negative modifier results, in list order. */
  function Bonus(ms: seq<Modifier>, usage: Usage): (total: int)
    ensures total >= 0
    decreases |ms|
  {
    if ms == [] then 0
    else
      var last := ms[|ms| - 1].amount(usage);
      Bonus(ms[..|ms| - 1], usage) + (if last < 0 then 0 else last)
  }

  /** The sum of the negative modifier results, in list order. */
  function Penalty(ms: seq<Modifier>, usage: Usage): (total: int)
    ensures total <= 0
    decreases |ms|
  {
    if ms == [] then 0
    else
      var last := ms[|ms| - 1].amount(usage);
      Penalty(ms[..|ms| - 1], usage) + (if last < 0 then last else 0)
  }

  /** Every result lands in exactly one of the two sums. */
  lemma {:induction false} BonusPlusPenalty(ms: seq<Modifier>, usage: Usage)
    ensures Bonus(ms, usage) + Penalty(ms, usage) == SumAmounts(ms, usage)
    decreases |ms|
  {
    if ms != [] {
      BonusPlusPenalty(ms[..|ms| - 1], usage);
    }
  }

  /** The plain sum of the modifier results. */
  function SumAmounts(ms: seq<Modifier>, usage: Usage): int
    decreases |ms|
  {
    if ms == [] then 0 else SumAmounts(ms[..|ms| - 1], usage) + ms[|ms| - 1].amount(usage)
  }

  /** Whether `spec` is truthy in JavaScript: given and not 0. */
  predicate Truthy(spec: Option<int>)
  {
    spec.Some? && spec.value != 0
  }

  // ---------------------------------------------------------------------
  // The skills state

  class SkillTree {
    var index: map<int, IndexEntry>
    var types: map<int, string>
    var skills: map<int, Entry>
    var specs: map<int, Entry>
    var processed: bool
    /** Keys that have a rank/slots binding. */
    var bindings: set<int>
    /** Per-key modifiers, in registration order. */
    var modifiers: map<int, seq<Modifier>>

    /** `defaultState` followed by `processData` over `raw`, as the factory
        does when it is first created. */
    constructor (raw: map<int, RawEntry>)
      ensures ClassifiedAs(raw, index, types, skills, specs)
      ensures processed && bindings == {} && modifiers == map[]
      ensures Valid()
    {
      index := map[];
      types := map[];
      skills := map[];
      specs := map[];
      processed := false;
      bindings := {};
      modifiers := map[];
      new;
      ProcessData(raw);
    }

    /** The index names only existing records, every spec is indexed as a
        spec, every skill carries its type, every binding is on a trained
        record and no key has two modifiers with one id. */
    ghost predicate Valid()
      reads this
    {
      && TablesAgree(index, skills, specs)
      && BindingsOnTrained(bindings, skills, specs)
      && ModifiersUnique(modifiers)
    }

    /** `processData`: classify every raw entry, in ascending key order, as
        a root type (parent 0), a skill (parent a root) or a spec (parent a
        skill). It runs on the default state. */
    method ProcessData(raw: map<int, RawEntry>)
      requires index == map[] && types == map[] && skills == map[] && specs == map[]
      requires !processed && bindings == {}
      requires ModifiersUnique(modifiers)
      modifies this
      ensures ClassifiedAs(raw, index, types, skills, specs)
      ensures processed && bindings == {} && modifiers == old(modifiers)
      ensures Valid()
    {
      var roots, skillRecords, specRecords, classified := Classify(raw);
      ClassifiedTablesAgree(raw, classified, roots, skillRecords, specRecords);
      types, skills, specs, index := roots, skillRecords, specRecords, classified;
      processed := true;
    }

    // -------------------------------------------------------------------
    // Bindings

    /** `addSkillBinding`: bind an existing, trained skill. */
    method AddSkillBinding(skill: int) returns (ok: bool)
      modifies this
      ensures ok <==> skill in skills && skills[skill].trained
      ensures bindings == if ok then old(bindings) + {skill} else old(bindings)
      ensures index == old(index) && types == old(types) && skills == old(skills) && specs == old(specs)
      ensures processed == old(processed) && modifiers == old(modifiers)
    {
      if skill !in skills || !skills[skill].trained {
        return false;
      }
      bindings := bindings + {skill};
      ok := true;
    }

    /** `addSpecBinding`: bind an existing, trained spec whose parent skill
        exists and is trained. */
    method AddSpecBinding(spec: int) returns (ok: bool)
      modifies this
      ensures ok <==> spec in specs && specs[spec].trained && ParentTrained(skills, specs[spec])
      ensures bindings == if ok then old(bindings) + {spec} else old(bindings)
      ensures index == old(index) && types == old(types) && skills == old(skills) && specs == old(specs)
      ensures processed == old(processed) && modifiers == old(modifiers)
    {
      if spec !in specs || !specs[spec].trained {
        return false;
      }
      var skill := specs[spec].parent;
      if skill !in skills || !skills[skill].trained {
        return false;
      }
      bindings := bindings + {spec};
      ok := true;
    }

    /** `removeBinding` as written: it reports whether `id` is bound but
        deletes the property literally named `id`, which no integer key
        is, so the binding stays. */
    method RemoveBindingAsWritten(id: int) returns (ok: bool)
      modifies this
      ensures ok <==> id in old(bindings)
      ensures ok ==> id in bindings
      ensures bindings == old(bindings)
      ensures index == old(index) && types == old(types) && skills == old(skills) && specs == old(specs)
      ensures processed == old(processed) && modifiers == old(modifiers)
    {
      ok := id in bindings;
    }

    /** `removeBinding`, corrected to delete the binding of `id`. */
    method RemoveBinding(id: int) returns (ok: bool)
      modifies this
      ensures ok <==> id in old(bindings)
      ensures bindings == old(bindings) - {id}
      ensures index == old(index) && types == old(types) && skills == old(skills) && specs == old(specs)
      ensures processed == old(processed) && modifiers == old(modifiers)
    {
      ok := id in bindings;
      bindings := bindings - {id};
    }

    /** `createBindings`: rebuild the bindings from scratch, one for every
        trained skill and one for every trained spec of a trained skill. */
    method CreateBindings()
      requires TablesAgree(index, skills, specs) && ModifiersUnique(modifiers)
      modifies this
      ensures forall b :: b in bindings <==>
                (b in skills && skills[b].trained) || (b in specs && specs[b].trained && ParentTrained(skills, specs[b]))
      ensures index == old(index) && types == old(types) && skills == old(skills) && specs == old(specs)
      ensures processed == old(processed) && modifiers == old(modifiers)
      ensures Valid()
    {
      bindings := {};
      BindTrainedSkills(SortedKeys(skills.Keys));
      BindTrainedSpecs(SortedKeys(specs.Keys));
    }

    /** The first loop of `createBindings`: bind each listed trained skill. */
    method BindTrainedSkills(keys: seq<int>)
      requires forall k | k in keys :: k in skills
      modifies this
      ensures index == old(index) && types == old(types) && skills == old(skills) && specs == old(specs)
      ensures processed == old(processed) && modifiers == old(modifiers)
      ensures forall b :: b in bindings <==> b in old(bindings) || (b in keys && skills[b].trained)
    {
      for i := 0 to |keys|
        invariant index == old(index) && types == old(types) && skills == old(skills) && specs == old(specs)
        invariant processed == old(processed) && modifiers == old(modifiers)
        invariant forall b :: b in bindings <==> b in old(bindings) || (b in keys[..i] && skills[b].trained)
      {
        var key := keys[i];
        assert key in keys;
        if skills[key].trained {
          var bound := AddSkillBinding(key);
        }
      }
      assert keys[..|keys|] == keys;
    }

    /** The second loop of `createBindings`: bind each listed trained spec
        whose parent skill is trained. */
    method BindTrainedSpecs(keys: seq<int>)
      requires forall k | k in keys :: k in specs
      modifies this
      ensures index == old(index) && types == old(types) && skills == old(skills) && specs == old(specs)
      ensures processed == old(processed) && modifiers == old(modifiers)
      ensures forall b :: b in bindings <==>
                b in old(bindings) || (b in keys && specs[b].trained && ParentTrained(skills, specs[b]))
    {
      for i := 0 to |keys|
        invariant index == old(index) && types == old(types) && skills == old(skills) && specs == old(specs)
        invariant processed == old(processed) && modifiers == old(modifiers)
        invariant forall b :: b in bindings <==>
                    b in old(bindings) || (b in keys[..i] && specs[b].trained && ParentTrained(skills, specs[b]))
      {
        var key := keys[i];
        assert key in keys;
        if specs[key].trained {
          var bound := AddSpecBinding(key);
        }
      }
      assert keys[..|keys|] == keys;
    }

    // -------------------------------------------------------------------
    // Training and wiping

    /** `trainSkill`: an untrained key indexed as a skill becomes trained
        and bound. */
    method TrainSkill(skill: int) returns (ok: bool)
      requires Valid()
      modifies this
      ensures index == old(index) && types == old(types) && specs == old(specs)
      ensures ok <==> skill in index && index[skill].kind == SkillKind && !old(skills[skill].trained)
      ensures ok ==> skills == old(skills)[skill := old(skills[skill]).(trained := true)]
      ensures ok ==> bindings == old(bindings) + {skill}
      ensures !ok ==> skills == old(skills) && bindings == old(bindings)
      ensures processed == old(processed) && modifiers == old(modifiers)
      ensures Valid()
    {
      if skill !in index || index[skill].kind != SkillKind || skills[skill].trained {
        return false;
      }
      skills := skills[skill := skills[skill].(trained := true)];
      var bound := AddSkillBinding(skill);
      ok := true;
    }

    /** `trainSpec`: an untrained key indexed as a spec becomes trained; it
        is bound when its parent skill is trained. */
    method TrainSpec(spec: int) returns (ok: bool)
      requires Valid()
      modifies this
      ensures index == old(index) && types == old(types) && skills == old(skills)
      ensures ok <==> spec in index && index[spec].kind == SpecKind && !old(specs[spec].trained)
      ensures ok ==> specs == old(specs)[spec := old(specs[spec]).(trained := true)]
      ensures ok ==> bindings == if ParentTrained(skills, specs[spec]) then old(bindings) + {spec} else old(bindings)
      ensures !ok ==> specs == old(specs) && bindings == old(bindings)
      ensures processed == old(processed) && modifiers == old(modifiers)
      ensures Valid()
    {
      if spec !in index || index[spec].kind != SpecKind || specs[spec].trained {
        return false;
      }
      specs := specs[spec := specs[spec].(trained := true)];
      var bound := AddSpecBinding(spec);
      ok := true;
    }

    /** `wipeSpec`: a trained key indexed as a spec loses its training,
        rank, slots and binding. */
    method WipeSpec(spec: int) returns (ok: bool)
      requires Valid()
      modifies this
      ensures index == old(index) && types == old(types) && skills == old(skills)
      ensures ok <==> spec in index && index[spec].kind == SpecKind && old(specs[spec].trained)
      ensures ok ==> specs == old(specs)[spec := Wiped(old(specs[spec]))]
      ensures ok ==> bindings == old(bindings) - {spec}
      ensures !ok ==> specs == old(specs) && bindings == old(bindings)
      ensures processed == old(processed) && modifiers == old(modifiers)
      ensures Valid()
    {
      if spec !in index || index[spec].kind != SpecKind || !specs[spec].trained {
        return false;
      }
      specs := specs[spec := Wiped(specs[spec])];
      var removed := RemoveBinding(spec);
      ok := true;
    }

    /** `wipeSkill`: a trained key indexed as a skill loses its training,
        rank, slots and binding, and so does each of its trained specs. */
    method WipeSkill(skill: int) returns (ok: bool)
      requires Valid()
      modifies this
      ensures index == old(index) && types == old(types)
      ensures ok <==> skill in index && index[skill].kind == SkillKind && old(skills[skill].trained)
      ensures ok ==> skills == old(skills)[skill := Wiped(old(skills[skill]))]
      ensures ok ==> CascadeWiped(old(specs), specs, skill)
      ensures ok ==> forall b :: b in bindings <==>
                b in old(bindings) && b != skill && !(b in old(specs) && CascadesFrom(skill, old(specs)[b]))
      ensures !ok ==> skills == old(skills) && specs == old(specs) && bindings == old(bindings)
      ensures processed == old(processed) && modifiers == old(modifiers)
      ensures Valid()
    {
      if skill !in index || index[skill].kind != SkillKind || !skills[skill].trained {
        return false;
      }
      skills := skills[skill := Wiped(skills[skill])];
      var removed := RemoveBinding(skill);
      WipeSpecs(FilterSpecTrained(skill, None));
      ok := true;
    }

    /** The cascade of `wipeSkill`: `wipeSpec` on each listed spec, all of
        them trained and distinct. */
    method WipeSpecs(targets: seq<int>)
      requires Valid()
      requires StrictlySorted(targets)
      requires forall k | k in targets :: k in specs && specs[k].trained
      modifies this
      ensures index == old(index) && types == old(types) && skills == old(skills)
      ensures processed == old(processed) && modifiers == old(modifiers)
      ensures forall k :: k in specs <==> k in old(specs)
      ensures forall k | k in specs :: specs[k] == if k in targets then Wiped(old(specs)[k]) else old(specs)[k]
      ensures forall b :: b in bindings <==> b in old(bindings) && b !in targets
      ensures Valid()
    {
      for i := 0 to |targets|
        invariant Valid()
        invariant index == old(index) && types == old(types) && skills == old(skills)
        invariant processed == old(processed) && modifiers == old(modifiers)
        invariant forall k :: k in specs <==> k in old(specs)
        invariant forall k | k in specs :: specs[k] == if k in targets[..i] then Wiped(old(specs)[k]) else old(specs)[k]
        invariant forall b :: b in bindings <==> b in old(bindings) && b !in targets[..i]
      {
        var spec := targets[i];
        assert spec !in targets[..i];
        assert targets[..i + 1] == targets[..i] + [spec];
        var wiped := WipeSpec(spec);
      }
      assert targets[..|targets|] == targets;
    }

    // -------------------------------------------------------------------
    // Modifiers

    /** `addModifier`: register `mod` under `id` for `skill` unless that id
        is taken there; a non-function `mod` becomes a constant. */
    method AddModifier(skill: int, id: string, mod: ModArg) returns (ok: bool)
      requires Valid()
      modifies this
      ensures ok <==> !HasId(ModifiersOf(old(modifiers), skill), id)
      ensures ok ==> modifiers == old(modifiers)[skill := ModifiersOf(old(modifiers), skill) + [Modifier(id, AsFunction(mod))]]
      ensures !ok ==> modifiers == old(modifiers)
      ensures index == old(index) && types == old(types) && skills == old(skills) && specs == old(specs)
      ensures processed == old(processed) && bindings == old(bindings)
      ensures Valid()
    {
      var registered := ModifiersOf(modifiers, skill);
      if HasId(registered, id) {
        return false;
      }
      AppendKeepsUnique(registered, Modifier(id, AsFunction(mod)));
      modifiers := modifiers[skill := registered + [Modifier(id, AsFunction(mod))]];
      ok := true;
    }

    /** `removeModifier`: unregister the modifier `id` of `skill`, if any. */
    method RemoveModifier(skill: int, id: string) returns (ok: bool)
      requires Valid()
      modifies this
      ensures ok <==> skill in old(modifiers) && HasId(old(modifiers)[skill], id)
      ensures ok ==> modifiers == old(modifiers)[skill := Without(old(modifiers)[skill], id)]
      ensures !ok ==> modifiers == old(modifiers)
      ensures index == old(index) && types == old(types) && skills == old(skills) && specs == old(specs)
      ensures processed == old(processed) && bindings == old(bindings)
      ensures Valid()
    {
      if skill !in modifiers || !HasId(modifiers[skill], id) {
        return false;
      }
      modifiers := modifiers[skill := Without(modifiers[skill], id)];
      ok := true;
    }

    // -------------------------------------------------------------------
    // Filters. `data`, when given, lists the keys to filter (an empty list
    // is given too); otherwise every skill or spec key, in order.

    /** `filterSkillNotType`: skills whose type is not `t`. */
    function FilterSkillNotType(t: string, data: Option<seq<int>>): (r: seq<int>)
      reads this
      requires data.Some? ==> forall x | x in data.value :: x in skills
      ensures forall x :: x in r <==> x in Candidates(data, skills.Keys) && skills[x].typeName != Some(t)
      ensures |r| <= |Candidates(data, skills.Keys)|
      ensures data.None? ==> StrictlySorted(r)
    {
      var sk := skills;
      Select(Candidates(data, sk.Keys), NotOfType(sk, t))
    }

    /** `filterSkillTrained`: trained skills. */
    function FilterSkillTrained(data: Option<seq<int>>): (r: seq<int>)
      reads this
      requires data.Some? ==> forall x | x in data.value :: x in skills
      ensures forall x :: x in r <==> x in Candidates(data, skills.Keys) && skills[x].trained
      ensures data.None? ==> StrictlySorted(r)
    {
      var sk := skills;
      Select(Candidates(data, sk.Keys), TrainedIn(sk))
    }

    /** `filterSkillUntrained`: untrained skills. */
    function FilterSkillUntrained(data: Option<seq<int>>): (r: seq<int>)
      reads this
      requires data.Some? ==> forall x | x in data.value :: x in skills
      ensures forall x :: x in r <==> x in Candidates(data, skills.Keys) && !skills[x].trained
      ensures data.None? ==> StrictlySorted(r)
    {
      var sk := skills;
      Select(Candidates(data, sk.Keys), UntrainedIn(sk))
    }

    /** `filterTypeTrained`: trained skills of type `t`. */
    function FilterTypeTrained(t: string, data: Option<seq<int>>): (r: seq<int>)
      reads this
      requires data.Some? ==> forall x | x in data.value :: x in skills
      ensures forall x :: x in r <==> x in Candidates(data, skills.Keys) && skills[x].typeName == Some(t) && skills[x].trained
      ensures data.None? ==> StrictlySorted(r)
    {
      var sk := skills;
      Select(Candidates(data, sk.Keys), TrainedOfType(sk, t))
    }

    /** `filterSpecAll`: specs whose parent is `skill`. */
    function FilterSpecAll(skill: int, data: Option<seq<int>>): (r: seq<int>)
      reads this
      requires data.Some? ==> forall x | x in data.value :: x in specs
      ensures forall x :: x in r <==> x in Candidates(data, specs.Keys) && specs[x].parent == skill
      ensures data.None? ==> StrictlySorted(r)
    {
      var sp := specs;
      Select(Candidates(data, sp.Keys), SpecOf(sp, skill))
    }

    /** `filterSpecTrained`: trained specs whose parent is `skill`; nothing
        for the falsy skill 0. */
    function FilterSpecTrained(skill: int, data: Option<seq<int>>): (r: seq<int>)
      reads this
      requires data.Some? ==> forall x | x in data.value :: x in specs
      ensures skill == 0 ==> r == []
      ensures forall x :: x in r <==> x in Candidates(data, specs.Keys) && CascadesFrom(skill, specs[x])
      ensures data.None? ==> StrictlySorted(r)
    {
      if skill == 0 then []
      else
        var sp := specs;
        Select(Candidates(data, sp.Keys), TrainedSpecOf(sp, skill))
    }

    /** `filterSpecUntrained`: untrained specs whose parent is `skill`;
        nothing for the falsy skill 0. */
    function FilterSpecUntrained(skill: int, data: Option<seq<int>>): (r: seq<int>)
      reads this
      requires data.Some? ==> forall x | x in data.value :: x in specs
      ensures skill == 0 ==> r == []
      ensures forall x :: x in r <==>
                skill != 0 && x in Candidates(data, specs.Keys) && specs[x].parent == skill && !specs[x].trained
      ensures data.None? ==> StrictlySorted(r)
    {
      if skill == 0 then []
      else
        var sp := specs;
        Select(Candidates(data, sp.Keys), UntrainedSpecOf(sp, skill))
    }

    /** `isTypeTrained`: `t` names a root type and some skill of that type
        is trained. */
    function IsTypeTrained(t: string): (r: bool)
      reads this
      ensures r <==> t in types.Values && HasTrainedOfType(skills, t)
    {
      var trained := FilterTypeTrained(t, None);
      assert HasTrainedOfType(skills, t) <==> |trained| > 0 by {
        if HasTrainedOfType(skills, t) {
          var k :| k in skills && skills[k].typeName == Some(t) && skills[k].trained;
          assert k in trained;
        }
        if |trained| > 0 {
          assert trained[0] in trained;
        }
      }
      t in types.Values && |trained| > 0
    }

    // -------------------------------------------------------------------
    // Getters

    /** `rankSkill`: the skill's rank, 0 for an unknown key. */
    function RankSkill(skill: int): (r: int)
      reads this
      ensures skill in skills ==> r == skills[skill].rank
      ensures skill !in skills ==> r == 0
    {
      if skill in skills then skills[skill].rank else 0
    }

    /** `rankSpec`: the spec's rank, 0 for an unknown key. */
    function RankSpec(spec: int): (r: int)
      reads this
      ensures spec in specs ==> r == specs[spec].rank
      ensures spec !in specs ==> r == 0
    {
      if spec in specs then specs[spec].rank else 0
    }

    /** `slotsSkill`: the skill's slots, 0 for an unknown key. */
    function SlotsSkill(skill: int): (r: int)
      reads this
      ensures skill in skills ==> r == skills[skill].slots
      ensures skill !in skills ==> r == 0
    {
      if skill in skills then skills[skill].slots else 0
    }

    /** `slotsSpec`: the spec's slots, 0 for an unknown key. */
    function SlotsSpec(spec: int): (r: int)
      reads this
      ensures spec in specs ==> r == specs[spec].slots
      ensures spec !in specs ==> r == 0
    {
      if spec in specs then specs[spec].slots else 0
    }

    /** `nameSkill`: the skill's name, "unknown" for an unknown key. */
    function NameSkill(skill: int): (r: string)
      reads this
      ensures skill in skills ==> r == skills[skill].name
      ensures skill !in skills ==> r == "unknown"
    {
      if skill in skills then skills[skill].name else "unknown"
    }

    /** `nameSpec`: the spec's name, "unknown" for an unknown key. */
    function NameSpec(spec: int): (r: string)
      reads this
      ensures spec in specs ==> r == specs[spec].name
      ensures spec !in specs ==> r == "unknown"
    {
      if spec in specs then specs[spec].name else "unknown"
    }

    /** `typeSkill`: the skill's type, "unknown" for an unknown key. A
        skill always has a type in a valid state. */
    function TypeSkill(skill: int): (r: string)
      reads this
      requires Valid()
      ensures skill in skills ==> Some(r) == skills[skill].typeName
      ensures skill !in skills ==> r == "unknown"
    {
      if skill in skills then skills[skill].typeName.value else "unknown"
    }

    /** `trainableSkill`: the slots the next rank of the skill costs, read
        from the table by the current rank; None where the lookup yields
        nothing (an unknown skill, a rank outside the table). The top rank
        reads -1. */
    function TrainableSkill(skill: int): (r: Option<int>)
      reads this
      ensures r.Some? <==> skill in skills && 0 <= skills[skill].rank < |TrainableSlotsSkill|
      ensures r.Some? ==> r.value == TrainableSlotsSkill[skills[skill].rank]
      ensures r.Some? ==> (r.value == -1 <==> skills[skill].rank == 5) && (r.value != -1 ==> r.value > 0)
    {
      if skill in skills && 0 <= skills[skill].rank < |TrainableSlotsSkill|
      then Some(TrainableSlotsSkill[skills[skill].rank])
      else None
    }

    /** `trainableSpec`: as `trainableSkill`, for a spec and its table. */
    function TrainableSpec(spec: int): (r: Option<int>)
      reads this
      ensures r.Some? <==> spec in specs && 0 <= specs[spec].rank < |TrainableSlotsSpec|
      ensures r.Some? ==> r.value == TrainableSlotsSpec[specs[spec].rank]
      ensures r.Some? ==> (r.value == -1 <==> specs[spec].rank == 3) && (r.value != -1 ==> r.value > 0)
    {
      if spec in specs && 0 <= specs[spec].rank < |TrainableSlotsSpec|
      then Some(TrainableSlotsSpec[specs[spec].rank])
      else None
    }

    // -------------------------------------------------------------------
    // Totals

    /** `calcSkillTotal`: the skill's rank plus the diminished bonus (the
        spec's rank and every non-negative modifier of the skill and the
        spec) plus every negative modifier; -1 for an unknown skill, or a
        given spec that is unknown or belongs to another skill. */
    method CalcSkillTotal(skill: int, spec: Option<int>, usage: Usage) returns (total: int)
      ensures total == SkillTotal(skills, specs, modifiers, skill, spec, usage)
    {
      if skill !in skills {
        return -1;
      }
      if Truthy(spec) {
        if spec.value !in specs || specs[spec.value].parent != skill {
          return -1;
        }
      }
      var base := skills[skill].rank;
      var bonus := if Truthy(spec) then specs[spec.value].rank else 0;
      var penalty := 0;
      ghost var bonus0 := bonus;
      var skillMods := ModifiersOf(modifiers, skill);
      for i := 0 to |skillMods|
        invariant bonus == bonus0 + Bonus(skillMods[..i], usage)
        invariant penalty == Penalty(skillMods[..i], usage)
      {
        assert skillMods[..i + 1][..i] == skillMods[..i];
        var result := skillMods[i].amount(usage);
        if result < 0 {
          penalty := penalty + result;
        } else {
          bonus := bonus + result;
        }
      }
      assert skillMods[..|skillMods|] == skillMods;
      var specMods := if spec.Some? then ModifiersOf(modifiers, spec.value) else [];
      ghost var bonus1, penalty1 := bonus, penalty;
      for i := 0 to |specMods|
        invariant bonus == bonus1 + Bonus(specMods[..i], usage)
        invariant penalty == penalty1 + Penalty(specMods[..i], usage)
      {
        assert specMods[..i + 1][..i] == specMods[..i];
        var result := specMods[i].amount(usage);
        if result < 0 {
          penalty := penalty + result;
        } else {
          bonus := bonus + result;
        }
      }
      assert specMods[..|specMods|] == specMods;
      total := base + DiminishingBonus(bonus) + penalty;
    }
  }

  /** The index names only existing records, every spec is indexed as a
      spec and every skill carries its type. */
  ghost predicate TablesAgree(index: map<int, IndexEntry>, skills: map<int, Entry>, specs: map<int, Entry>)
  {
    && (forall k | k in index && index[k].kind == SkillKind :: k in skills)
    && (forall k | k in index && index[k].kind == SpecKind :: k in specs)
    && (forall k | k in specs :: k in index && index[k].kind == SpecKind)
    && (forall k | k in skills :: skills[k].typeName.Some?)
  }

  /** The classification of any raw table has agreeing tables. */
  lemma ClassifiedTablesAgree(raw: map<int, RawEntry>, index: map<int, IndexEntry>, types: map<int, string>,
                              skills: map<int, Entry>, specs: map<int, Entry>)
    requires ClassifiedAs(raw, index, types, skills, specs)
    ensures TablesAgree(index, skills, specs)
  {
  }

  /** The tables `processData` computes from the raw table. */
  method Classify(raw: map<int, RawEntry>)
    returns (types: map<int, string>, skills: map<int, Entry>, specs: map<int, Entry>,
             index: map<int, IndexEntry>)
    ensures ClassifiedAs(raw, index, types, skills, specs)
  {
    var keys := SortedKeys(raw.Keys);
    var rootIndex, skillIndex;
    types, rootIndex := ClassifyRoots(raw, keys);
    skills, skillIndex := ClassifySkills(raw, keys, types, rootIndex);
    specs, index := ClassifySpecs(raw, keys, types, skills, skillIndex);
    PassesClassify(raw, types, rootIndex, skills, skillIndex, specs, index);
  }

  /** The three passes together give the classification. */
  lemma PassesClassify(raw: map<int, RawEntry>, types: map<int, string>, rootIndex: map<int, IndexEntry>,
                       skills: map<int, Entry>, skillIndex: map<int, IndexEntry>,
                       specs: map<int, Entry>, index: map<int, IndexEntry>)
    requires forall k :: k in types <==> k in raw && ParentIn(raw[k], {0})
    requires forall k | k in types :: types[k] == raw[k].name
    requires forall k :: k in rootIndex <==> k in types
    requires forall k | k in rootIndex :: rootIndex[k] == IndexEntry(Root, raw[k].name)
    requires forall k :: k in skills <==> k in raw && ParentIn(raw[k], types.Keys)
    requires forall k | k in skills :: skills[k] == MakeEntry(k, raw[k], TypeNameOf(raw[k].parent, types))
    requires forall k :: k in skillIndex <==> k in rootIndex || k in skills
    requires forall k | k in skillIndex ::
               skillIndex[k] == if k in skills then IndexEntry(SkillKind, raw[k].name) else rootIndex[k]
    requires forall k :: k in specs <==> k in raw && ParentIn(raw[k], skills.Keys)
    requires forall k | k in specs :: specs[k] == MakeEntry(k, raw[k], TypeNameOf(raw[k].parent, types))
    requires forall k :: k in index <==> k in skillIndex || k in specs
    requires forall k | k in index ::
               index[k] == if k in specs then IndexEntry(SpecKind, raw[k].name) else skillIndex[k]
    ensures ClassifiedAs(raw, index, types, skills, specs)
  {
    forall k | k in index
      ensures index[k] == IndexEntry(if k in specs then SpecKind else if k in skills then SkillKind else Root,
                                     raw[k].name)
    {
      if k !in specs {
        assert index[k] == skillIndex[k];
        if k !in skills {
          assert skillIndex[k] == rootIndex[k];
        }
      }
    }
  }

  // The three passes of `processData`, each over the keys in order. The
  // passes build the new tables and `processData` stores them at the end,
  // which nothing between the passes can observe.

  /** The first pass: entries with parent 0 become root types. */
  method ClassifyRoots(raw: map<int, RawEntry>, keys: seq<int>)
    returns (types: map<int, string>, index: map<int, IndexEntry>)
    requires forall k :: k in keys <==> k in raw
    ensures forall k :: k in types <==> k in raw && ParentIn(raw[k], {0})
    ensures forall k | k in types :: types[k] == raw[k].name
    ensures forall k :: k in index <==> k in types
    ensures forall k | k in index :: index[k] == IndexEntry(Root, raw[k].name)
  {
    types, index := map[], map[];
    for i := 0 to |keys|
      invariant forall k :: k in types <==> k in keys[..i] && raw[k].parent == 0
      invariant forall k | k in types :: types[k] == raw[k].name
      invariant forall k :: k in index <==> k in types
      invariant forall k | k in index :: index[k] == IndexEntry(Root, raw[k].name)
    {
      var key := keys[i];
      if raw[key].parent == 0 {
        types := types[key := raw[key].name];
        index := index[key := IndexEntry(Root, raw[key].name)];
      }
    }
    assert keys[..|keys|] == keys;
  }

  /** The second pass: entries whose parent is a root become skills typed by
      that root's name. */
  method ClassifySkills(raw: map<int, RawEntry>, keys: seq<int>, types: map<int, string>,
                        index0: map<int, IndexEntry>)
    returns (skills: map<int, Entry>, index: map<int, IndexEntry>)
    requires forall k :: k in keys <==> k in raw
    ensures forall k :: k in skills <==> k in raw && ParentIn(raw[k], types.Keys)
    ensures forall k | k in skills :: skills[k] == MakeEntry(k, raw[k], TypeNameOf(raw[k].parent, types))
    ensures forall k :: k in index <==> k in index0 || k in skills
    ensures forall k | k in index ::
              index[k] == if k in skills then IndexEntry(SkillKind, raw[k].name) else index0[k]
  {
    skills, index := map[], index0;
    for i := 0 to |keys|
      invariant forall k :: k in skills <==> k in keys[..i] && ParentIn(raw[k], types.Keys)
      invariant forall k | k in skills :: skills[k] == MakeEntry(k, raw[k], TypeNameOf(raw[k].parent, types))
      invariant forall k :: k in index <==> k in index0 || k in skills
      invariant forall k | k in index ::
                  index[k] == if k in skills then IndexEntry(SkillKind, raw[k].name) else index0[k]
    {
      var key := keys[i];
      var data := raw[key];
      if data.parent in types {
        index := index[key := IndexEntry(SkillKind, data.name)];
        skills := skills[key := MakeEntry(key, data, Some(types[data.parent]))];
      }
    }
    assert keys[..|keys|] == keys;
  }

  /** The third pass: entries whose parent is a skill become specs. */
  method ClassifySpecs(raw: map<int, RawEntry>, keys: seq<int>, types: map<int, string>,
                       skills: map<int, Entry>, index0: map<int, IndexEntry>)
    returns (specs: map<int, Entry>, index: map<int, IndexEntry>)
    requires forall k :: k in keys <==> k in raw
    ensures forall k :: k in specs <==> k in raw && ParentIn(raw[k], skills.Keys)
    ensures forall k | k in specs :: specs[k] == MakeEntry(k, raw[k], TypeNameOf(raw[k].parent, types))
    ensures forall k :: k in index <==> k in index0 || k in specs
    ensures forall k | k in index ::
              index[k] == if k in specs then IndexEntry(SpecKind, raw[k].name) else index0[k]
  {
    specs, index := map[], index0;
    for i := 0 to |keys|
      invariant forall k :: k in specs <==> k in keys[..i] && ParentIn(raw[k], skills.Keys)
      invariant forall k | k in specs :: specs[k] == MakeEntry(k, raw[k], TypeNameOf(raw[k].parent, types))
      invariant forall k :: k in index <==> k in index0 || k in specs
      invariant forall k | k in index ::
                  index[k] == if k in specs then IndexEntry(SpecKind, raw[k].name) else index0[k]
    {
      var key := keys[i];
      var data := raw[key];
      if data.parent in skills {
        index := index[key := IndexEntry(SpecKind, data.name)];
        specs := specs[key := MakeEntry(key, data, TypeNameOf(data.parent, types))];
      }
    }
    assert keys[..|keys|] == keys;
  }

  // ---------------------------------------------------------------------
  // State predicates and specifications used by the skill tree

  /** Every binding is on a trained skill or a trained spec. */
  ghost predicate BindingsOnTrained(bindings: set<int>, skills: map<int, Entry>, specs: map<int, Entry>)
  {
    forall b | b in bindings :: (b in skills && skills[b].trained) || (b in specs && specs[b].trained)
  }

  /** No key has two modifiers registered under one id. */
  ghost predicate ModifiersUnique(modifiers: map<int, seq<Modifier>>)
  {
    forall k | k in modifiers :: UniqueIds(modifiers[k])
  }

  /** The modifiers registered for `key`; none when it has no registry. */
  function ModifiersOf(modifiers: map<int, seq<Modifier>>, key: int): seq<Modifier>
  {
    if key in modifiers then modifiers[key] else []
  }

  /** Whether the record's parent skill exists and is trained. */
  predicate ParentTrained(skills: map<int, Entry>, e: Entry)
  {
    e.parent in skills && skills[e.parent].trained
  }

  /** Whether wiping `skill` wipes the spec record `e`: a trained spec of
      that skill, where the skill is not the falsy key 0. */
  predicate CascadesFrom(skill: int, e: Entry)
  {
    skill != 0 && e.parent == skill && e.trained
  }

  /** Whether some trained skill has type `t`. */
  predicate HasTrainedOfType(skills: map<int, Entry>, t: string)
  {
    exists k | k in skills :: skills[k].typeName == Some(t) && skills[k].trained
  }

  /** `after` is `before` with every spec that wiping `skill` cascades to
      wiped, and nothing else changed. */
  ghost predicate CascadeWiped(before: map<int, Entry>, after: map<int, Entry>, skill: int)
  {
    && (forall k :: k in after <==> k in before)
    && (forall k | k in after :: after[k] == if CascadesFrom(skill, before[k]) then Wiped(before[k]) else before[k])
  }

  /** After the cascade of wiping a (non-zero) skill, none of its specs is
      trained, and every other spec is as it was. */
  lemma CascadeLeavesNoTrainedSpec(before: map<int, Entry>, after: map<int, Entry>, skill: int)
    requires CascadeWiped(before, after, skill)
    ensures skill != 0 ==> forall k | k in after && after[k].parent == skill :: !after[k].trained
    ensures forall k | k in after && after[k].parent != skill :: after[k] == before[k]
  {
  }

  // The tests the filters apply to each key.

  function NotOfType(skills: map<int, Entry>, t: string): int -> bool
  {
    x => x in skills && skills[x].typeName != Some(t)
  }

  function TrainedIn(records: map<int, Entry>): int -> bool
  {
    x => x in records && records[x].trained
  }

  function UntrainedIn(records: map<int, Entry>): int -> bool
  {
    x => x in records && !records[x].trained
  }

  function TrainedOfType(skills: map<int, Entry>, t: string): int -> bool
  {
    x => x in skills && skills[x].typeName == Some(t) && skills[x].trained
  }

  function SpecOf(specs: map<int, Entry>, skill: int): int -> bool
  {
    x => x in specs && specs[x].parent == skill
  }

  function TrainedSpecOf(specs: map<int, Entry>, skill: int): int -> bool
  {
    x => x in specs && specs[x].parent == skill && specs[x].trained
  }

  function UntrainedSpecOf(specs: map<int, Entry>, skill: int): int -> bool
  {
    x => x in specs && specs[x].parent == skill && !specs[x].trained
  }

  /** The keys a filter runs over. */
  function Candidates(data: Option<seq<int>>, keys: set<int>): seq<int>
  {
    if data.Some? then data.value else SortedKeys(keys)
  }

  /** The result `calcSkillTotal` computes from the state. */
  function SkillTotal(skills: map<int, Entry>, specs: map<int, Entry>, modifiers: map<int, seq<Modifier>>,
                      skill: int, spec: Option<int>, usage: Usage): (total: int)
    ensures skill !in skills ==> total == -1
    ensures Truthy(spec) && (spec.value !in specs || specs[spec.value].parent != skill) ==> total == -1
  {
    if skill !in skills then -1
    else if Truthy(spec) && (spec.value !in specs || specs[spec.value].parent != skill) then -1
    else
      var skillMods := ModifiersOf(modifiers, skill);
      var specMods := if spec.Some? then ModifiersOf(modifiers, spec.value) else [];
      var specRank := if Truthy(spec) then specs[spec.value].rank else 0;
      skills[skill].rank
      + DiminishingBonus(specRank + Bonus(skillMods, usage) + Bonus(specMods, usage))
      + Penalty(skillMods, usage) + Penalty(specMods, usage)
  }

  // ---------------------------------------------------------------------
  // Properties of the skill tree

  /** Two tests that disagree on every element split a list: the two
      selections together are as long as the list. */
  lemma {:induction false} SelectComplement(xs: seq<int>, a: int -> bool, b: int -> bool)
    requires forall x | x in xs :: a(x) != b(x)
    ensures |Select(xs, a)| + |Select(xs, b)| == |xs|
    decreases |xs|
  {
    if xs != [] {
      var x := xs[0];
      assert x in xs;
      assert a(x) != b(x);
      assert forall y | y in xs[1..] :: y in xs;
      SelectComplement(xs[1..], a, b);
      assert |Select(xs, a)| == |Select(xs[1..], a)| + if a(x) then 1 else 0;
      assert |Select(xs, b)| == |Select(xs[1..], b)| + if b(x) then 1 else 0;
    }
  }

  /** A test that holds exactly where one of two exclusive tests holds
      selects as many elements as the two together. */
  lemma {:induction false} SelectSplit(xs: seq<int>, both: int -> bool, a: int -> bool, b: int -> bool)
    requires forall x | x in xs :: both(x) == (a(x) || b(x)) && !(a(x) && b(x))
    ensures |Select(xs, both)| == |Select(xs, a)| + |Select(xs, b)|
    decreases |xs|
  {
    if xs != [] {
      var x := xs[0];
      assert x in xs;
      assert both(x) == (a(x) || b(x)) && !(a(x) && b(x));
      assert forall y | y in xs[1..] :: y in xs;
      SelectSplit(xs[1..], both, a, b);
      assert |Select(xs, both)| == |Select(xs[1..], both)| + if both(x) then 1 else 0;
      assert |Select(xs, a)| == |Select(xs[1..], a)| + if a(x) then 1 else 0;
      assert |Select(xs, b)| == |Select(xs[1..], b)| + if b(x) then 1 else 0;
    }
  }

  /** Every candidate skill is either trained or untrained. */
  lemma SkillFilterPartition(tree: SkillTree, data: Option<seq<int>>)
    requires data.Some? ==> forall x | x in data.value :: x in tree.skills
    ensures |tree.FilterSkillTrained(data)| + |tree.FilterSkillUntrained(data)| == |Candidates(data, tree.skills.Keys)|
  {
    var sk := tree.skills;
    SelectComplement(Candidates(data, sk.Keys), TrainedIn(sk), UntrainedIn(sk));
  }

  /** The specs of a non-zero skill are its trained and its untrained specs. */
  lemma SpecFilterPartition(tree: SkillTree, skill: int, data: Option<seq<int>>)
    requires skill != 0
    requires data.Some? ==> forall x | x in data.value :: x in tree.specs
    ensures |tree.FilterSpecAll(skill, data)|
            == |tree.FilterSpecTrained(skill, data)| + |tree.FilterSpecUntrained(skill, data)|
  {
    var sp := tree.specs;
    SelectSplit(Candidates(data, sp.Keys), SpecOf(sp, skill), TrainedSpecOf(sp, skill), UntrainedSpecOf(sp, skill));
  }

  /** The classification of a raw table is unique: `processData` has one
      possible outcome. */
  lemma ClassificationUnique(raw: map<int, RawEntry>,
                             index1: map<int, IndexEntry>, types1: map<int, string>,
                             skills1: map<int, Entry>, specs1: map<int, Entry>,
                             index2: map<int, IndexEntry>, types2: map<int, string>,
                             skills2: map<int, Entry>, specs2: map<int, Entry>)
    requires ClassifiedAs(raw, index1, types1, skills1, specs1)
    requires ClassifiedAs(raw, index2, types2, skills2, specs2)
    ensures types1 == types2 && skills1 == skills2 && specs1 == specs2 && index1 == index2
  {
    assert types1 == types2 by {
      assert forall k :: k in types1 <==> k in types2;
      assert forall k | k in types1 :: types1[k] == types2[k];
    }
    assert skills1 == skills2 by {
      assert forall k :: k in skills1 <==> k in skills2;
      assert forall k | k in skills1 :: skills1[k] == skills2[k];
    }
    assert specs1 == specs2 by {
      assert forall k :: k in specs1 <==> k in specs2;
      assert forall k | k in specs1 :: specs1[k] == specs2[k];
    }
    assert forall k :: k in index1 <==> k in index2;
    assert forall k | k in index1 :: index1[k] == index2[k];
  }

  /** `removeBinding` as written strands the binding of a wiped spec, so
      bindings no longer sit on trained records; removing the binding
      itself keeps them there. */
  lemma StrandedBinding(bindings: set<int>, skills: map<int, Entry>, specs: map<int, Entry>, spec: int)
    requires spec in specs && specs[spec].trained && spec in bindings && spec !in skills
    ensures !BindingsOnTrained(bindings, skills, specs[spec := Wiped(specs[spec])])
    ensures BindingsOnTrained(bindings, skills, specs) ==>
              BindingsOnTrained(bindings - {spec}, skills, specs[spec := Wiped(specs[spec])])
  {
  }

  /** A concrete case: spec 2 of skill 1, trained and bound, then wiped. */
  lemma StrandedBindingExample()
    ensures var spec := Entry(2, "Spec", 1, None, true, 1, 0);
            var skill := Entry(1, "Skill", 0, Some("Type"), true, 1, 0);
            BindingsOnTrained({1, 2}, map[1 := skill], map[2 := spec])
            && !BindingsOnTrained({1, 2}, map[1 := skill], map[2 := Wiped(spec)])
  {
    var spec := Entry(2, "Spec", 1, None, true, 1, 0);
    assert 2 in {1, 2} && Wiped(spec).trained == false;
  }

  /** Registering one more modifier on the skill moves its total by that
      modifier's result: up by at most the result when it is non-negative
      (the bonus diminishes), down by exactly the result otherwise. */
  lemma ModifierEffect(skills: map<int, Entry>, specs: map<int, Entry>, modifiers: map<int, seq<Modifier>>,
                       skill: int, spec: Option<int>, usage: Usage, m: Modifier)
    requires skill in skills
    requires !(Truthy(spec) && (spec.value !in specs || specs[spec.value].parent != skill))
    requires spec.None? || spec.value != skill
    ensures var before := SkillTotal(skills, specs, modifiers, skill, spec, usage);
            var after := SkillTotal(skills, specs, modifiers[skill := ModifiersOf(modifiers, skill) + [m]],
                                    skill, spec, usage);
            (m.amount(usage) >= 0 ==> before <= after <= before + m.amount(usage))
            && (m.amount(usage) < 0 ==> after == before + m.amount(usage))
  {
    var ms := ModifiersOf(modifiers, skill);
    var modifiers' := modifiers[skill := ms + [m]];
    var a := m.amount(usage);
    BonusAppend(ms, m, usage);
    assert ModifiersOf(modifiers', skill) == ms + [m];
    var specMods := if spec.Some? then ModifiersOf(modifiers, spec.value) else [];
    assert specMods == if spec.Some? then ModifiersOf(modifiers', spec.value) else [];
    var specRank := if Truthy(spec) then specs[spec.value].rank else 0;
    var b := specRank + Bonus(ms, usage) + Bonus(specMods, usage);
    var p := Penalty(ms, usage) + Penalty(specMods, usage);
    var rank := skills[skill].rank;
    assert SkillTotal(skills, specs, modifiers, skill, spec, usage) == rank + DiminishingBonus(b) + p;
    if a < 0 {
      assert SkillTotal(skills, specs, modifiers', skill, spec, usage) == rank + DiminishingBonus(b) + p + a;
    } else {
      assert SkillTotal(skills, specs, modifiers', skill, spec, usage) == rank + DiminishingBonus(b + a) + p;
      DiminishingBonusBounds(b, b + a);
    }
  }

  /** Appending a modifier adds its result to exactly one of the sums. */
  lemma BonusAppend(ms: seq<Modifier>, m: Modifier, usage: Usage)
    ensures m.amount(usage) >= 0 ==> Bonus(ms + [m], usage) == Bonus(ms, usage) + m.amount(usage)
    ensures m.amount(usage) >= 0 ==> Penalty(ms + [m], usage) == Penalty(ms, usage)
    ensures m.amount(usage) < 0 ==> Bonus(ms + [m], usage) == Bonus(ms, usage)
    ensures m.amount(usage) < 0 ==> Penalty(ms + [m], usage) == Penalty(ms, usage) + m.amount(usage)
  {
    assert (ms + [m])[..|ms|] == ms;
  }

  /** With non-negative ranks the total lies between the skill's rank plus
      the penalties and the rank plus the spec's rank and every result. */
  lemma SkillTotalBounds(skills: map<int, Entry>, specs: map<int, Entry>, modifiers: map<int, seq<Modifier>>,
                         skill: int, spec: Option<int>, usage: Usage)
    requires skill in skills
    requires !(Truthy(spec) && (spec.value !in specs || specs[spec.value].parent != skill))
    requires Truthy(spec) ==> specs[spec.value].rank >= 0
    ensures var skillMods := ModifiersOf(modifiers, skill);
            var specMods := if spec.Some? then ModifiersOf(modifiers, spec.value) else [];
            var specRank := if Truthy(spec) then specs[spec.value].rank else 0;
            var total := SkillTotal(skills, specs, modifiers, skill, spec, usage);
            skills[skill].rank + Penalty(skillMods, usage) + Penalty(specMods, usage) <= total
            && total <= skills[skill].rank + specRank + SumAmounts(skillMods, usage) + SumAmounts(specMods, usage)
  {
    var skillMods := ModifiersOf(modifiers, skill);
    var specMods := if spec.Some? then ModifiersOf(modifiers, spec.value) else [];
    var specRank := if Truthy(spec) then specs[spec.value].rank else 0;
    BonusPlusPenalty(skillMods, usage);
    BonusPlusPenalty(specMods, usage);
    DiminishingBonusBounds(0, specRank + Bonus(skillMods, usage) + Bonus(specMods, usage));
  }
}
