// src/manager.rs in its own form: a Manager that changes its registry and its actors in place.
module ManagerRuntime {
  import opened Vocabulary
  import opened ActorModel

  // The steps of init() for `n` actors.
  function Boots(n: nat): seq<Step> {
    if n == 0 then [] else [SendBoot, ActorModel.Spawn] + Boots(n - 1)
  }

  // The steps of shutdown() for the actors from `i` on.
  function Posts(i: nat, n: nat): seq<Step>
    requires i <= n
    decreases n - i
  {
    if i == n then [] else [Post(i, Message.Shutdown, None)] + Posts(i + 1, n)
  }

  class Manager {
    var registry: map<Name, nat>
    var refs: seq<Ref>
    var sys: Sys

    ghost predicate Valid()
      reads this
    {
      Indexed() && Running()
    }

    // Each reference leads to the actor with its index, and each name to the last reference of that name.
    ghost predicate Indexed()
      reads `registry, `refs
    {
      && (forall i | 0 <= i < |refs| :: refs[i].Local? && refs[i].box == i && refs[i].name in registry)
      && (forall name | name in registry :: LastNamed(registry[name], name))
    }

    ghost predicate LastNamed(k: nat, name: Name)
      reads `refs
    {
      && k < |refs| && refs[k].name == name
      && forall j | k < j < |refs| :: refs[j].name != name
    }

    // One actor for each call of manage(), with its Start if and only if it has its thread.
    ghost predicate Running()
      reads `sys, `refs
    {
      && sys.booted == sys.spawned <= |sys.actors| == |refs|
      && (forall i | sys.spawned <= i < |sys.actors| :: sys.actors[i].pc.Unborn?)
    }

    constructor ()
      ensures Valid() && sys == NewSys([])
    {
      registry, refs := map[], [];
      sys := Sys([], 0, 0, [], map[]);
    }

    method Manage(name: Name) returns (ref: Ref)
      requires Valid()
      modifies this
      ensures Valid()
      ensures sys == old(sys).(actors := old(sys.actors) + [NewActor(name)])
      ensures ref == Local(|old(sys.actors)|, name) && refs == old(refs) + [ref]
    {
      var n := |sys.actors|;
      ref := Local(n, name);
      registry := registry[name := n];
      refs := refs + [ref];
      sys := sys.(actors := sys.actors + [NewActor(name)]);
    }

    // A name given to several actors leads to the last of them.
    method GetRef(name: Name) returns (ref: Option<Ref>)
      requires Valid()
      ensures ref.Some? <==> exists i | 0 <= i < |refs| :: refs[i].name == name
      ensures ref.Some? ==> ref.value.Local? && ref.value.name == name && LastNamed(ref.value.box, name)
    {
      if name in registry {
        ref := Some(refs[registry[name]]);
        assert LastNamed(registry[name], name);
      } else {
        ref := None;
      }
    }

    // init(): each actor that has no thread yet gets its Start and then its thread, in the order of
    // manage().
    method Init()
      requires Valid()
      modifies this`sys
      ensures Valid() && sys.spawned == |sys.actors| == |old(sys.actors)|
      ensures Exec(old(sys), Boots(|sys.actors| - old(sys.spawned))) == Some(sys)
      ensures forall i | 0 <= i < |sys.actors| ::
                sys.actors[i] == if i < old(sys.spawned) then old(sys.actors[i])
                                 else Deliver(old(sys.actors[i]), Boot, Envelope(Start, None, None)).(pc := Top)
    {
      hide Exec, Boots, Deliver, Indexed;
      ghost var first := sys.spawned;
      while sys.spawned < |sys.actors|
        invariant Valid() && first <= sys.spawned && |sys.actors| == |old(sys.actors)|
        invariant forall i | 0 <= i < |sys.actors| ::
                    sys.actors[i] == if first <= i < sys.spawned
                                     then Deliver(old(sys.actors[i]), Boot, Envelope(Start, None, None)).(pc := Top)
                                     else old(sys.actors[i])
        invariant Exec(old(sys), Boots(|sys.actors| - first))
                  == Exec(sys, Boots(|sys.actors| - sys.spawned))
        decreases |sys.actors| - sys.spawned
      {
        StartOne();
      }
      NothingLeft(sys, 0);
    }

    method StartOne()
      requires Valid() && sys.spawned < |sys.actors|
      modifies this`sys
      ensures Valid() && sys.spawned == old(sys.spawned) + 1 && |sys.actors| == |old(sys.actors)|
      ensures sys.actors == old(sys.actors)[old(sys.spawned) :=
                                Deliver(old(sys.actors[sys.spawned]), Boot, Envelope(Start, None, None)).(pc := Top)]
      ensures Exec(old(sys), Boots(|sys.actors| - old(sys.spawned))) == Exec(sys, Boots(|sys.actors| - sys.spawned))
    {
      var k := sys.spawned;
      var a := sys.actors[k];
      ghost var sys1 := ActorModel.Apply(sys, SendBoot);
      sys := sys.(actors := sys.actors[k := Deliver(a, Boot, Envelope(Start, None, None))], booted := k + 1);
      sys := sys.(actors := sys.actors[k := sys.actors[k].(pc := Top)], spawned := k + 1);
      assert sys == ActorModel.Apply(sys1, ActorModel.Spawn);
      BootsOne(old(sys), sys1, sys, |sys.actors| - sys.spawned);
    }

    // shutdown(): every actor gets a Shutdown message, and that is all.
    method Shutdown()
      requires Valid()
      modifies this`sys
      ensures Valid() && Exec(old(sys), Posts(0, |old(sys.actors)|)) == Some(sys)
      ensures |sys.actors| == |old(sys.actors)|
      ensures forall i | 0 <= i < |sys.actors| ::
                sys.actors[i] == Deliver(old(sys.actors[i]), Outside, Envelope(Message.Shutdown, None, None))
    {
      hide Exec, Posts, Deliver, LastNamed;
      var n, env := |refs|, Envelope(Message.Shutdown, None, None);
      for k := 0 to n
        invariant Valid() && |sys.actors| == n
        invariant forall i | 0 <= i < n ::
                    sys.actors[i] == if i < k then Deliver(old(sys.actors[i]), Outside, env) else old(sys.actors[i])
        invariant Exec(old(sys), Posts(0, n)) == Exec(sys, Posts(k, n))
      {
        var box := refs[k].box;
        ghost var before := sys;
        DeliverKeepsPc(sys.actors[box], Outside, env);
        sys := sys.(actors := sys.actors[box := Deliver(sys.actors[box], Outside, env)]);
        PostsOne(before, sys, k, n);
      }
      NothingLeft(sys, n);
    }
  }

  lemma DeliverKeepsPc(a: Actor, origin: Origin, env: Envelope)
    ensures Deliver(a, origin, env).pc == a.pc
  {
  }

  lemma NothingLeft(s: Sys, n: nat)
    ensures Exec(s, Boots(0)) == Some(s) && Exec(s, Posts(n, n)) == Some(s)
  {
  }

  lemma BootsOne(s: Sys, s1: Sys, s2: Sys, n: nat)
    requires Enabled(s, SendBoot) && s1 == ActorModel.Apply(s, SendBoot)
    requires Enabled(s1, ActorModel.Spawn) && s2 == ActorModel.Apply(s1, ActorModel.Spawn)
    ensures Exec(s, Boots(n + 1)) == Exec(s2, Boots(n))
  {
    var steps := Boots(n + 1);
    assert steps[0] == SendBoot && steps[1..][0] == ActorModel.Spawn && steps[1..][1..] == Boots(n);
    hide Apply, Enabled, Boots;
    assert Exec(s1, steps[1..]) == Exec(s2, steps[1..][1..]);
  }

  lemma PostsOne(s: Sys, s1: Sys, k: nat, n: nat)
    requires k < n && Enabled(s, Post(k, Message.Shutdown, None))
    requires s1 == ActorModel.Apply(s, Post(k, Message.Shutdown, None))
    ensures Exec(s, Posts(k, n)) == Exec(s1, Posts(k + 1, n))
  {
    assert Posts(k, n)[1..] == Posts(k + 1, n);
    hide Apply, Enabled;
  }
}
