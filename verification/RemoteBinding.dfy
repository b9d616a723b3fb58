/**
 `RemoteBinding` (packages/chord/src/remote.ts:245-383) as it is updated in place by the frames of its link, each update
 proved against the binding of module `Bindings`.
 */
module RemoteBindings {
  import opened Streams
  import opened Providing
  import opened Bindings

  class RemoteBinding {
    const contract: Contract
    var live: bool
    var hydrated: bool
    var shape: Option<Shaped>
    var members: map<string, Replica>
    var pending: Option<Incoming>

    ghost function View(): (b: Binding)
      reads this
    {
      Binding(contract, live, hydrated, shape, members, pending)
    }

    constructor (contract: Contract)
      ensures View() == Binding(contract, false, false, None, map[], None)
    {
      this.contract := contract;
      live, hydrated, shape, members, pending := false, false, None, map[], None;
    }

    /** The state members of `s` the consumer's contract describes. */
    function Wanted(s: Shaped): (names: set<string>) {
      set m | m in StateMembers(contract, s.variant, s.members)
    }

    /** `shaped`: a unit begins, or a newer one before the snapshots of the one before. */
    method Shaped(s: Shaped, listed: seq<string>)
      modifies this
      ensures View() == old(View()).Shape(s, listed)
    {
      var missing := {};
      for i := 0 to |listed|
        invariant missing == set m | m in listed[..i]
      {
        missing := missing + {listed[i]};
      }
      assert listed[..|listed|] == listed;
      assert missing + {} == missing;
      if pending.Some? {
        missing := missing + pending.value.missing;
      }
      var wanted := Wanted(s);
      assert wanted == View().Wanted(s);
      missing := OnlyWanted(missing, wanted);
      pending := Some(Incoming(s, missing, if pending.Some? then pending.value.values else map[]));
      if missing == {} {
        Apply();
      }
    }

    /** A state frame for member `m` of the current hold. */
    method State(m: string, f: Frame)
      requires f.Base? || f.Ops?
      modifies this
      ensures View() == old(View()).State(m, f)
    {
      if f.Ops? {
        if pending.Some? && m in pending.value.values {
          var p := pending.value;
          pending := Some(p.(values := p.values[m := Play(p.values[m], f.ops)]));
        } else if m in members {
          members := members[m := Play(members[m], f.ops)];
        }
        return;
      }
      if pending.Some? && (m in pending.value.missing || m in pending.value.values) {
        var p := pending.value;
        pending := Some(Incoming(p.shape, p.missing - {m}, p.values[m := Started(f.start)]));
        if pending.value.missing == {} {
          Apply();
        }
        return;
      }
      if shape.Some? && shape.value.variant in contract && m in contract[shape.value.variant] {
        members := members[m := Started(f.start)];
      }
    }

    /** `#apply`: members outside the variant go, new values replace old ones, and the views follow. */
    method Apply()
      requires pending.Some?
      modifies this
      ensures View() == old(View()).Apply()
    {
      var p := pending.value;
      var wanted := Wanted(p.shape);
      assert wanted == View().Wanted(p.shape);
      var next := Merged(members, p.values, wanted);
      shape, members, pending, live, hydrated := Some(p.shape), next, None, true, wanted <= next.Keys;
    }

    /** The link went down but may come back: the values stay readable, a unit on its way is forgotten. */
    method Detached()
      modifies this
      ensures View() == old(View()).Detached()
      ensures !live && pending == None && members == old(members) && hydrated == old(hydrated) && shape == old(shape)
    {
      live, pending := false, None;
    }
  }

  /** The wanted members, those of `done` with their new value. */
  function Mixed(members: map<string, Replica>, values: map<string, Replica>, wanted: set<string>, done: set<string>): map<string, Replica>
    requires done <= values.Keys
  {
    map m | m in members.Keys + done && m in wanted :: if m in done then values[m] else members[m]
  }

  lemma MixedStep(members: map<string, Replica>, values: map<string, Replica>, wanted: set<string>, done: set<string>, x: string)
    requires done <= values.Keys && x in values
    ensures var r := Mixed(members, values, wanted, done);
            Mixed(members, values, wanted, done + {x}) == if x in wanted then r[x := values[x]] else r
  {
  }

  function Only(members: map<string, Replica>, wanted: set<string>): map<string, Replica> {
    map m | m in members && m in wanted :: members[m]
  }

  lemma MixedStart(members: map<string, Replica>, values: map<string, Replica>, wanted: set<string>)
    ensures Mixed(members, values, wanted, {}) == Only(members, wanted)
  {
    assert members.Keys + {} == members.Keys;
  }

  /** Deletes what is not wanted, then sets what is new. */
  method Merged(members: map<string, Replica>, values: map<string, Replica>, wanted: set<string>) returns (r: map<string, Replica>)
    ensures r == Mixed(members, values, wanted, values.Keys)
  {
    hide Mixed, Only;
    MixedStart(members, values, wanted);
    r := Only(members, wanted);
    var todo, done := values.Keys, {};
    while todo != {}
      invariant todo + done == values.Keys && r == Mixed(members, values, wanted, done)
      decreases |todo|
    {
      var m :| m in todo;
      MixedStep(members, values, wanted, done, m);
      todo, done := todo - {m}, done + {m};
      if m in wanted {
        r := r[m := values[m]];
      }
    }
    assert done == values.Keys;
  }

  method OnlyWanted(names: set<string>, wanted: set<string>) returns (r: set<string>)
    ensures r == names * wanted
  {
    r := names;
    var todo := names;
    while todo != {}
      invariant todo <= names && r == names * wanted + todo
      decreases |todo|
    {
      var m :| m in todo;
      todo := todo - {m};
      if m !in wanted {
        r := r - {m};
      }
    }
  }
}
