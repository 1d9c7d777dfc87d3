/** The shared data model: dialogue lines, the per-role memory bank record, `GameRole` with its
    identity rules, and the `Player` / `ScriptStatus` records with their defaults. */
module GameTypes {
  import opened PyBuiltins

  type RoleId = int

  /** The `LineAttribute` enumeration of a dialogue line. */
  datatype LineAttribute = System | User | Assistant

  /** One entry of the append-only dialogue log (`GameLine`). `None` stands for a field left `None`. */
  datatype GameLine = GameLine(
    content: Option<string>,
    attribute: LineAttribute,
    senderRoleId: Option<RoleId>,
    displayName: Option<string>,
    perceivedRoleIds: Option<seq<RoleId>>)

  /** One message of a role's short context, as built from the log (a `dict` in the source). */
  type MemoryEntry = map<string, string>

  /** `memory_bank.meta`: the log pointer and the time of the last consolidation. */
  datatype MemoryMeta = MemoryMeta(lastProcessedGlobalIdx: int, updatedAt: string)

  /** `memory_bank.data`: the four consolidated memory sections. */
  datatype MemoryData = MemoryData(shortTerm: string, longTerm: string, userInfo: string, promises: string)

  datatype MemoryBank = MemoryBank(meta: MemoryMeta, data: MemoryData)

  /** The bank of a role that has never been consolidated: pointer 0 and empty sections. */
  const EmptyMemoryBank := MemoryBank(MemoryMeta(0, ""), MemoryData("", "", "", ""))

  /** A game role at run time. The core never reassigns `role_id`, so it is a constant here. */
  class GameRole {
    const roleId: Option<RoleId>
    var memory: seq<MemoryEntry>
    var displayName: Option<string>
    var settings: map<string, string>
    var resourcePath: Option<string>
    var prompt: Option<string>
    var memoryBank: MemoryBank

    /** `GameRole(role_id=...)`: every other field takes its dataclass default. */
    constructor (roleId: Option<RoleId>)
      ensures this.roleId == roleId
      ensures IsDefault()
    {
      this.roleId := roleId;
      memory := [];
      displayName := None;
      settings := map[];
      resourcePath := None;
      prompt := None;
      memoryBank := EmptyMemoryBank;
    }

    ghost predicate IsDefault()
      reads this
    {
      memory == [] && displayName.None? && HasDefaultProfile()
    }

    /** The fields that neither `sync_memories` nor the memory sync touch, at their defaults. */
    ghost predicate HasDefaultProfile()
      reads this
    {
      settings == map[] && resourcePath.None? && prompt.None? && memoryBank == EmptyMemoryBank
    }
  }

  /** Any Python value `other` that `GameRole.__eq__` may be handed. */
  datatype PyValue = RoleValue(role: GameRole) | OtherValue

  /** `GameRole.__eq__`: by `role_id` when both ids are set, otherwise by object identity;
      never equal to a value that is not a `GameRole`. */
  function RoleEq(self: GameRole, other: PyValue): (r: bool)
    ensures !other.RoleValue? ==> !r
    ensures other.RoleValue? && self.roleId.Some? && other.role.roleId.Some? ==>
              (r <==> self.roleId.value == other.role.roleId.value)
    ensures other.RoleValue? && (self.roleId.None? || other.role.roleId.None?) ==>
              (r <==> self == other.role)
  {
    match other
    case OtherValue => false
    case RoleValue(o) =>
      if self.roleId.None? || o.roleId.None? then self == o
      else self.roleId.value == o.roleId.value
  }

  /** What `GameRole.__hash__` hashes: the `role_id` when set, otherwise the object itself (`id(self)`). */
  datatype HashKey = OfRoleId(id: RoleId) | OfObject(obj: GameRole)

  function RoleHash(self: GameRole): (h: HashKey)
    ensures self.roleId.Some? ==> h == OfRoleId(self.roleId.value)
    ensures self.roleId.None? ==> h == OfObject(self)
  {
    if self.roleId.Some? then OfRoleId(self.roleId.value) else OfObject(self)
  }

  /** Equal roles hash alike, as the hash/eq contract of Python requires. */
  lemma EqualRolesHashAlike(a: GameRole, b: GameRole)
    requires RoleEq(a, RoleValue(b))
    ensures RoleHash(a) == RoleHash(b)
  {
  }

  /** `__eq__` is an equivalence on roles. */
  lemma RoleEqIsEquivalence(a: GameRole, b: GameRole, c: GameRole)
    ensures RoleEq(a, RoleValue(a))
    ensures RoleEq(a, RoleValue(b)) ==> RoleEq(b, RoleValue(a))
    ensures RoleEq(a, RoleValue(b)) && RoleEq(b, RoleValue(c)) ==> RoleEq(a, RoleValue(c))
  {
  }

  /** The `Player` record. */
  datatype Player = Player(userName: string, userSubtitle: string, userPrompt: string)

  /** `Player()`: all three fields empty. */
  function DefaultPlayer(): (p: Player)
    ensures p.userName == "" && p.userSubtitle == "" && p.userPrompt == ""
  {
    Player("", "", "")
  }

  /** The `ScriptStatus` record of a running script. */
  datatype ScriptStatus = ScriptStatus(
    folderKey: string,
    name: string,
    description: string,
    introCharpter: string,
    settings: map<string, string>,
    runningClientId: Option<string>,
    currentCharpterKey: string,
    currentEventProcess: int,
    vars: map<string, string>)

  /** `ScriptStatus(folder_key, name, description, intro_charpter, settings)`: the required fields as
      given, no running client, an empty chapter key, progress 0 and no variables. */
  function NewScriptStatus(folderKey: string, name: string, description: string, introCharpter: string,
                           settings: map<string, string>): (s: ScriptStatus)
    ensures s.folderKey == folderKey && s.name == name && s.description == description
    ensures s.introCharpter == introCharpter && s.settings == settings
    ensures s.runningClientId.None? && s.currentCharpterKey == "" && s.currentEventProcess == 0
    ensures s.vars == map[]
  {
    ScriptStatus(folderKey, name, description, introCharpter, settings, None, "", 0, map[])
  }
}
