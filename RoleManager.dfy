/** The run-time role cache (`GameRoleManager`): lazy creation of roles by id, and the
    synchronisation of the roles a stretch of dialogue involves (their display name and their
    rebuilt short context). */
module RoleManager {
  import opened PyBuiltins
  import opened GameTypes

  /** `lines[-recent_n:] if recent_n else lines`: every line when `recent_n` is `None` or 0, the
      last `recent_n` lines when it is positive, and (Python slicing) all but the first `-recent_n`
      when it is negative. */
  function SourceLines(lines: seq<GameLine>, recentN: Option<int>): (r: seq<GameLine>)
    ensures recentN.None? || recentN.value == 0 ==> r == lines
    ensures recentN.Some? && recentN.value > 0 ==>
              |r| == (if recentN.value <= |lines| then recentN.value else |lines|)
              && r == lines[|lines| - |r|..]
    ensures recentN.Some? && recentN.value < 0 ==>
              r == lines[if -recentN.value <= |lines| then -recentN.value else |lines|..]
  {
    if recentN.None? || recentN.value == 0 then lines else SliceFrom(lines, -recentN.value)
  }

  /** `line` brings `id` into the synchronisation: as its (truthy, i.e. non-zero) sender, or as one
      of the ids that perceived it. */
  predicate LineInvolves(line: GameLine, id: RoleId)
  {
    (line.senderRoleId == Some(id) && id != 0)
    || (line.perceivedRoleIds.Some? && id in line.perceivedRoleIds.value)
  }

  /** The ids one line adds to the set; `None` when `perceived_role_ids` is `None`, on which
      `set.update` raises `TypeError`. */
  function LineIds(line: GameLine): Option<set<RoleId>>
  {
    if line.perceivedRoleIds.None? then None
    else
      var sender: set<RoleId> :=
        if line.senderRoleId.Some? && line.senderRoleId.value != 0 then {line.senderRoleId.value} else {};
      Some(sender + set id | id in line.perceivedRoleIds.value)
  }

  /** The involved-id set collected over `lines`, line by line; `None` stands for the `TypeError`. */
  function InvolvedIds(lines: seq<GameLine>): Option<set<RoleId>>
  {
    if lines == [] then Some({})
    else
      var front := InvolvedIds(lines[..|lines| - 1]);
      var last := LineIds(lines[|lines| - 1]);
      if front.None? || last.None? then None else Some(front.value + last.value)
  }

  /** The collection fails exactly when some line has no perceived-id list, and otherwise holds
      exactly the ids some line involves. */
  lemma {:induction false} InvolvedIdsMeaning(lines: seq<GameLine>)
    ensures InvolvedIds(lines).Some? <==> forall i :: 0 <= i < |lines| ==> lines[i].perceivedRoleIds.Some?
    ensures InvolvedIds(lines).Some? ==>
              forall id :: id in InvolvedIds(lines).value <==>
                exists i :: 0 <= i < |lines| && LineInvolves(lines[i], id)
  {
    if lines != [] {
      var front := lines[..|lines| - 1];
      var last := lines[|lines| - 1];
      InvolvedIdsMeaning(front);
      assert forall i :: 0 <= i < |front| ==> front[i] == lines[i];
      if InvolvedIds(lines).Some? {
        forall id
          ensures id in InvolvedIds(lines).value <==> exists i :: 0 <= i < |lines| && LineInvolves(lines[i], id)
        {
          if id in InvolvedIds(lines).value {
            if id in InvolvedIds(front).value {
              var i :| 0 <= i < |front| && LineInvolves(front[i], id);
              assert LineInvolves(lines[i], id);
            } else {
              assert LineInvolves(lines[|lines| - 1], id);
            }
          }
          if exists i :: 0 <= i < |lines| && LineInvolves(lines[i], id) {
            var i :| 0 <= i < |lines| && LineInvolves(lines[i], id);
            if i < |front| {
              assert LineInvolves(front[i], id);
            }
          }
        }
      }
    }
  }

  /** `line` was sent by the role with this id and carries a non-empty display name. */
  predicate NamedBy(line: GameLine, roleId: Option<RoleId>)
  {
    line.senderRoleId == roleId && line.displayName.Some? && line.displayName.value != ""
  }

  /** The display name of the latest line `NamedBy` the role, if any. */
  function LatestDisplayName(lines: seq<GameLine>, roleId: Option<RoleId>): Option<string>
  {
    if lines == [] then None
    else if NamedBy(lines[|lines| - 1], roleId) then lines[|lines| - 1].displayName
    else LatestDisplayName(lines[..|lines| - 1], roleId)
  }

  /** There is a latest name exactly when some line names the role, and then it is the name on the
      last such line. */
  lemma {:induction false} LatestDisplayNameMeaning(lines: seq<GameLine>, roleId: Option<RoleId>)
    ensures LatestDisplayName(lines, roleId).None? <==> forall i :: 0 <= i < |lines| ==> !NamedBy(lines[i], roleId)
    ensures LatestDisplayName(lines, roleId).Some? ==>
              exists i :: 0 <= i < |lines| && NamedBy(lines[i], roleId)
                && lines[i].displayName == LatestDisplayName(lines, roleId)
                && forall j :: i < j < |lines| ==> !NamedBy(lines[j], roleId)
  {
    if lines != [] && !NamedBy(lines[|lines| - 1], roleId) {
      var front := lines[..|lines| - 1];
      LatestDisplayNameMeaning(front, roleId);
      assert forall i :: 0 <= i < |front| ==> front[i] == lines[i];
      if LatestDisplayName(front, roleId).Some? {
        var i :| 0 <= i < |front| && NamedBy(front[i], roleId)
                 && front[i].displayName == LatestDisplayName(front, roleId)
                 && forall j :: i < j < |front| ==> !NamedBy(front[j], roleId);
        assert NamedBy(lines[i], roleId) && lines[i].displayName == LatestDisplayName(lines, roleId);
      }
    }
  }

  /** The display name a role ends a synchronisation with: the latest name it used in `lines`, or
      the one it had. */
  function NameAfterSync(previous: Option<string>, lines: seq<GameLine>, roleId: RoleId): Option<string>
  {
    var latest := LatestDisplayName(lines, Some(roleId));
    if latest.Some? then latest else previous
  }

  predicate Distinct(xs: seq<RoleId>)
  {
    forall i, j :: 0 <= i < j < |xs| ==> xs[i] != xs[j]
  }

  /** The ids of `xs` not in `seen`, each once, in the order they first occur. */
  function Unseen(xs: seq<RoleId>, seen: set<RoleId>): seq<RoleId>
  {
    if xs == [] then []
    else if xs[0] in seen then Unseen(xs[1..], seen)
    else [xs[0]] + Unseen(xs[1..], seen + {xs[0]})
  }

  lemma {:induction false} UnseenMeaning(xs: seq<RoleId>, seen: set<RoleId>)
    ensures forall x :: x in Unseen(xs, seen) <==> x in xs && x !in seen
    ensures Distinct(Unseen(xs, seen))
  {
    if xs != [] {
      if xs[0] in seen {
        UnseenMeaning(xs[1..], seen);
      } else {
        var rest := Unseen(xs[1..], seen + {xs[0]});
        UnseenMeaning(xs[1..], seen + {xs[0]});
        assert Unseen(xs, seen) == [xs[0]] + rest;
        assert forall i :: 0 <= i < |rest| ==> rest[i] != xs[0];
      }
    }
  }

  /** The ids one line visits, sender first, in the order `sync_memories` adds them. */
  function LineIdOrder(line: GameLine): seq<RoleId>
    requires line.perceivedRoleIds.Some?
  {
    (if line.senderRoleId.Some? && line.senderRoleId.value != 0 then [line.senderRoleId.value] else [])
    + line.perceivedRoleIds.value
  }

  /** `for line in lines: if line.sender_role_id: add; ids.update(line.perceived_role_ids)`.
      Beside the set, `order` lists its members once each in the order they were first added; it is
      the order in which `SyncMemories` visits them. */
  method CollectInvolvedIds(lines: seq<GameLine>) returns (ids: Option<set<RoleId>>, order: seq<RoleId>)
    ensures ids == InvolvedIds(lines)
    ensures ids.Some? ==> Distinct(order) && forall x :: x in order <==> x in ids.value
  {
    var acc: set<RoleId> := {};
    order := [];
    for i := 0 to |lines|
      invariant InvolvedIds(lines[..i]) == Some(acc)
      invariant Distinct(order) && forall x :: x in order <==> x in acc
    {
      var line := lines[i];
      ghost var before := acc;
      ghost var orderBefore := order;
      assert lines[..i + 1][..i] == lines[..i];
      if line.perceivedRoleIds.None? {
        InvolvedIdsMeaning(lines);
        return None, order;
      }
      var added := Unseen(LineIdOrder(line), acc);
      UnseenMeaning(LineIdOrder(line), acc);
      order := order + added;
      assert forall k :: 0 <= k < |order| ==> (k < |orderBefore| ==> order[k] in before) && (k >= |orderBefore| ==> order[k] == added[k - |orderBefore|]);
      if line.senderRoleId.Some? && line.senderRoleId.value != 0 {
        acc := acc + {line.senderRoleId.value};
      }
      acc := acc + set id | id in line.perceivedRoleIds.value;
      assert acc == before + LineIds(line).value;
    }
    assert lines[..|lines|] == lines;
    return Some(acc), order;
  }

  /** `_sync_display_name`: walk the lines backwards and take the first named line of the role. */
  method SyncDisplayName(role: GameRole, lines: seq<GameLine>)
    modifies role`displayName
    ensures role.displayName == (var latest := LatestDisplayName(lines, role.roleId);
                                 if latest.Some? then latest else old(role.displayName))
  {
    var i := |lines|;
    assert lines[..i] == lines;
    while i > 0
      invariant 0 <= i <= |lines|
      invariant LatestDisplayName(lines, role.roleId) == LatestDisplayName(lines[..i], role.roleId)
      invariant role.displayName == old(role.displayName)
    {
      i := i - 1;
      var line := lines[i];
      assert lines[..i + 1][..i] == lines[..i];
      if line.senderRoleId == role.roleId && line.displayName.Some? && line.displayName.value != "" {
        role.displayName := line.displayName;
        return;
      }
    }
  }

  /** `GameRoleManager`: the live roles by id. */
  class GameRoleManager {
    var loadedRoles: map<RoleId, GameRole>

    /** Every cached role is filed under its own id. */
    ghost predicate Valid()
      reads this
    {
      forall id :: id in loadedRoles ==> loadedRoles[id].roleId == Some(id)
    }

    constructor ()
      ensures Valid() && loadedRoles == map[]
    {
      loadedRoles := map[];
    }

    /** `get_role`: the cached role, or a fresh default role filed under `roleId`. An existing entry
        is returned as it is and the cache is left alone. */
    method GetRole(roleId: RoleId) returns (role: GameRole)
      requires Valid()
      modifies this`loadedRoles
      ensures Valid()
      ensures roleId in loadedRoles && role == loadedRoles[roleId] && role.roleId == Some(roleId)
      ensures roleId in old(loadedRoles) ==> loadedRoles == old(loadedRoles)
      ensures roleId !in old(loadedRoles) ==>
                fresh(role) && role.IsDefault() && loadedRoles == old(loadedRoles)[roleId := role]
    {
      if roleId !in loadedRoles {
        var created := new GameRole(Some(roleId));
        loadedRoles := loadedRoles[roleId := created];
      }
      role := loadedRoles[roleId];
    }

    /** The loop state of `sync_memories` after the ids in `done`: starting from the cache `roles0`
        whose roles had the names `names0` and memories `memories0`, every id of `done` is loaded and
        synced, every other role is as it was, and nothing else was added. */
    ghost predicate SyncedOver(done: seq<RoleId>, roles0: map<RoleId, GameRole>, names0: map<RoleId, Option<string>>,
                               memories0: map<RoleId, seq<MemoryEntry>>, src: seq<GameLine>,
                               build: (RoleId, seq<GameLine>) -> seq<MemoryEntry>)
      reads this, loadedRoles.Values
    {
      Valid() && names0.Keys == roles0.Keys && memories0.Keys == roles0.Keys
      && (forall id :: id in loadedRoles <==> id in roles0 || id in done)
      && (forall id :: id in roles0 ==> loadedRoles[id] == roles0[id])
      && (forall id :: id in done ==>
            loadedRoles[id].memory == build(id, src)
            && loadedRoles[id].displayName == NameAfterSync(if id in names0 then names0[id] else None, src, id))
      && (forall id :: id in roles0 && id !in done ==>
            loadedRoles[id].memory == memories0[id] && loadedRoles[id].displayName == names0[id])
      && (forall id :: id in loadedRoles && id !in roles0 ==> loadedRoles[id].HasDefaultProfile())
    }

    /** `_sync_display_name(role, source)` then `role.memory = builder.build(source)`. */
    static method UpdateRole(role: GameRole, rid: RoleId, src: seq<GameLine>,
                             build: (RoleId, seq<GameLine>) -> seq<MemoryEntry>)
      requires role.roleId == Some(rid)
      modifies role`memory, role`displayName
      ensures role.memory == build(rid, src)
      ensures role.displayName == NameAfterSync(old(role.displayName), src, rid)
    {
      SyncDisplayName(role, src);
      role.memory := build(rid, src);
    }

    /** The body of the per-role loop of `sync_memories` for one involved id: load the role, sync
        its display name and rebuild its memory; every other role keeps both fields. */
    method SyncRole(rid: RoleId, src: seq<GameLine>, build: (RoleId, seq<GameLine>) -> seq<MemoryEntry>,
                    ghost done: seq<RoleId>, ghost roles0: map<RoleId, GameRole>,
                    ghost names0: map<RoleId, Option<string>>, ghost memories0: map<RoleId, seq<MemoryEntry>>)
      requires SyncedOver(done, roles0, names0, memories0, src, build) && rid !in done
      modifies this`loadedRoles, loadedRoles.Values`memory, loadedRoles.Values`displayName
      ensures SyncedOver(done + [rid], roles0, names0, memories0, src, build)
      ensures rid in old(loadedRoles) ==> loadedRoles == old(loadedRoles)
      ensures rid !in old(loadedRoles) ==> loadedRoles == old(loadedRoles)[rid := loadedRoles[rid]] && fresh(loadedRoles[rid])
    {
      var role := GetRole(rid);
      assert role.displayName == if rid in names0 then names0[rid] else None;
      UpdateRole(role, rid, src, build);
      forall id | id in old(loadedRoles) && id != rid
        ensures loadedRoles[id] == old(loadedRoles[id])
        ensures loadedRoles[id].memory == old(loadedRoles[id].memory)
        ensures loadedRoles[id].displayName == old(loadedRoles[id].displayName)
      {
        assert loadedRoles[id].roleId != role.roleId;
      }
      forall id | id in roles0
        ensures loadedRoles[id] == roles0[id]
      {
        assert id in old(loadedRoles);
      }
      forall id | id in done + [rid]
        ensures loadedRoles[id].memory == build(id, src)
        ensures loadedRoles[id].displayName == NameAfterSync(if id in names0 then names0[id] else None, src, id)
      {
        if id != rid {
          assert id in done;
        }
      }
      forall id | id in roles0 && id !in done + [rid]
        ensures loadedRoles[id].memory == memories0[id] && loadedRoles[id].displayName == names0[id]
      {
        assert id in old(loadedRoles);
      }
      forall id | id in loadedRoles && id !in roles0
        ensures loadedRoles[id].HasDefaultProfile()
      {
        if id != rid {
          assert old(loadedRoles[id].HasDefaultProfile());
        }
      }
      assert forall id :: id in done + [rid] <==> id in done || id == rid;
    }

    /** The loop of `sync_memories` over the involved ids, visited in the order of `order`. */
    method SyncRoles(order: seq<RoleId>, src: seq<GameLine>, build: (RoleId, seq<GameLine>) -> seq<MemoryEntry>)
      requires Valid() && Distinct(order)
      modifies this`loadedRoles, loadedRoles.Values`memory, loadedRoles.Values`displayName
      ensures SyncedOver(order, old(loadedRoles), map id | id in old(loadedRoles) :: old(loadedRoles[id].displayName),
                         map id | id in old(loadedRoles) :: old(loadedRoles[id].memory), src, build)
      ensures forall id :: id in loadedRoles && id !in old(loadedRoles) ==> fresh(loadedRoles[id])
    {
      ghost var roles0 := loadedRoles;
      ghost var names0 := map id | id in loadedRoles :: loadedRoles[id].displayName;
      ghost var memories0 := map id | id in loadedRoles :: loadedRoles[id].memory;
      for k := 0 to |order|
        invariant SyncedOver(order[..k], roles0, names0, memories0, src, build)
        invariant forall o :: o in loadedRoles.Values ==> o in old(loadedRoles.Values) || fresh(o)
        invariant forall id :: id in loadedRoles && id !in roles0 ==> fresh(loadedRoles[id])
      {
        var rid := order[k];
        assert order[..k + 1] == order[..k] + [rid];
        assert rid !in order[..k];
        SyncRole(rid, src, build, order[..k], roles0, names0, memories0);
      }
      assert order[..|order|] == order;
    }

    /** `sync_memories`: every role the source lines involve is loaded, takes its latest display
        name and gets `memory := build(id, source)`; other roles are untouched and no role is
        dropped. A role loaded here is a new `GameRole(role_id=id)`: apart from its memory and
        name, it keeps the defaults. `raised` is the `TypeError` of a line without a perceived-id list, raised before
        anything changes. */
    method SyncMemories(lines: seq<GameLine>, recentN: Option<int>,
                        build: (RoleId, seq<GameLine>) -> seq<MemoryEntry>) returns (raised: bool)
      requires Valid()
      modifies this`loadedRoles, loadedRoles.Values`memory, loadedRoles.Values`displayName
      ensures Valid()
      ensures var ids := InvolvedIds(SourceLines(lines, recentN));
              raised <==> ids.None?
      ensures raised ==> loadedRoles == old(loadedRoles)
      ensures old(loadedRoles).Keys <= loadedRoles.Keys
      ensures forall id :: id in old(loadedRoles) ==> loadedRoles[id] == old(loadedRoles[id])
      ensures var src := SourceLines(lines, recentN);
              var ids := InvolvedIds(src);
              ids.Some? ==>
                loadedRoles.Keys == old(loadedRoles).Keys + ids.value
                && forall id :: id in ids.value ==>
                     loadedRoles[id].memory == build(id, src)
                     && loadedRoles[id].displayName ==
                          NameAfterSync(if id in old(loadedRoles) then old(loadedRoles[id].displayName) else None,
                                        src, id)
      ensures forall id :: id in old(loadedRoles) && (raised || id !in InvolvedIds(SourceLines(lines, recentN)).value) ==>
                loadedRoles[id].memory == old(loadedRoles[id].memory)
                && loadedRoles[id].displayName == old(loadedRoles[id].displayName)
      ensures forall id :: id in loadedRoles && id !in old(loadedRoles) ==>
                fresh(loadedRoles[id]) && loadedRoles[id].HasDefaultProfile()
    {
      var src := SourceLines(lines, recentN);
      var collected, order := CollectInvolvedIds(src);
      if collected.None? {
        return true;
      }
      SyncRoles(order, src, build);
      assert forall id :: id in order <==> id in collected.value;
      assert forall id :: id in loadedRoles <==> id in old(loadedRoles) || id in collected.value;
      return false;
    }
  }
}
