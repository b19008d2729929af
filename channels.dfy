/** The channel layer's group registry: each group name maps to the set of channel names
    subscribed to it. `group_add` and `group_discard` are the only operations the
    session uses; the broker behind them is not part of the model. */
module Channels {

  type Registry = map<string, set<string>>

  /** The channels subscribed to group `g`; a group nobody joined has none. */
  function Members(reg: Registry, g: string): set<string> {
    if g in reg then reg[g] else {}
  }

  /** `group_add(g, ch)` */
  function Added(reg: Registry, g: string, ch: string): (r: Registry)
    ensures Members(r, g) == Members(reg, g) + {ch}
    ensures forall h :: h != g ==> Members(r, h) == Members(reg, h)
  {
    reg[g := Members(reg, g) + {ch}]
  }

  /** `group_discard(g, ch)`: discarding a channel that is not there changes nothing. */
  function Discarded(reg: Registry, g: string, ch: string): (r: Registry)
    ensures Members(r, g) == Members(reg, g) - {ch}
    ensures forall h :: h != g ==> Members(r, h) == Members(reg, h)
  {
    if g in reg then reg[g := reg[g] - {ch}] else reg
  }

  /** `group_add(g, ch)` for every `g` of `gs`, in order. */
  function AddedAll(reg: Registry, gs: seq<string>, ch: string): Registry {
    if gs == [] then reg else Added(AddedAll(reg, gs[..|gs| - 1], ch), gs[|gs| - 1], ch)
  }

  /** `group_discard(g, ch)` for every `g` of `gs`, in order. */
  function DiscardedAll(reg: Registry, gs: seq<string>, ch: string): Registry {
    if gs == [] then reg else Discarded(DiscardedAll(reg, gs[..|gs| - 1], ch), gs[|gs| - 1], ch)
  }

  /** Joining a list of groups adds the channel to exactly those groups. */
  lemma {:induction false} AddedAllMembers(reg: Registry, gs: seq<string>, ch: string, g: string)
    ensures Members(AddedAll(reg, gs, ch), g) == Members(reg, g) + (if g in gs then {ch} else {})
  {
    if gs != [] {
      var front := gs[..|gs| - 1];
      AddedAllMembers(reg, front, ch, g);
      assert g in gs <==> g in front || g == gs[|gs| - 1] by {
        assert gs == front + [gs[|gs| - 1]];
      }
    }
  }

  /** Leaving a list of groups removes the channel from exactly those groups. */
  lemma {:induction false} DiscardedAllMembers(reg: Registry, gs: seq<string>, ch: string, g: string)
    ensures Members(DiscardedAll(reg, gs, ch), g) == Members(reg, g) - (if g in gs then {ch} else {})
  {
    if gs != [] {
      var front := gs[..|gs| - 1];
      DiscardedAllMembers(reg, front, ch, g);
      assert g in gs <==> g in front || g == gs[|gs| - 1] by {
        assert gs == front + [gs[|gs| - 1]];
      }
    }
  }

  /** Joining some groups and then leaving a list that covers them restores every
      group's members, provided the channel was in none of the left groups to begin with. */
  lemma JoinThenLeave(reg: Registry, joined: seq<string>, left: seq<string>, ch: string)
    requires forall g :: g in joined ==> g in left
    requires forall g :: g in left ==> ch !in Members(reg, g)
    ensures forall g :: Members(DiscardedAll(AddedAll(reg, joined, ch), left, ch), g) == Members(reg, g)
  {
    forall g ensures Members(DiscardedAll(AddedAll(reg, joined, ch), left, ch), g) == Members(reg, g) {
      AddedAllMembers(reg, joined, ch, g);
      DiscardedAllMembers(AddedAll(reg, joined, ch), left, ch, g);
    }
  }

  /** Leaving drops the membership count of each left group by exactly one, for a
      channel that was subscribed, and changes no other group. */
  lemma LeaveDropsOne(reg: Registry, gs: seq<string>, ch: string, g: string)
    requires ch in Members(reg, g)
    ensures g in gs ==> |Members(DiscardedAll(reg, gs, ch), g)| == |Members(reg, g)| - 1
    ensures g !in gs ==> Members(DiscardedAll(reg, gs, ch), g) == Members(reg, g)
  {
    DiscardedAllMembers(reg, gs, ch, g);
  }

  /** The channel layer, shared by every session of the process. */
  class ChannelLayer {
    var registry: Registry

    constructor ()
      ensures registry == map[]
    {
      registry := map[];
    }

    method GroupAdd(g: string, ch: string)
      modifies this
      ensures registry == Added(old(registry), g, ch)
    {
      registry := Added(registry, g, ch);
    }

    method GroupDiscard(g: string, ch: string)
      modifies this
      ensures registry == Discarded(old(registry), g, ch)
    {
      registry := Discarded(registry, g, ch);
    }
  }
}
