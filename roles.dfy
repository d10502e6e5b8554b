/** Agent roles and agent identities.

    `AgentRole`, `as_str` and `Display` follow src/types/agent.rs. The
    `AgentId` type lives in a file that is not part of this model; it is
    modelled here as a role plus an optional developer slot index, with
    `new_singleton` leaving the index out, `new_developer` setting it, and
    both `Display` and `socket_name` rendering the role name followed, for an
    indexed id, by `-` and the index in decimal (`developer-1`). */
module Roles {
  import opened Wrappers
  import opened Primitives

  datatype AgentRole = Manager | Architect | Developer | Scorer

  /** `AgentRole::as_str`. */
  function AsStr(role: AgentRole): (name: string)
    ensures |name| >= 6
  {
    match role
    case Manager => "manager"
    case Architect => "architect"
    case Developer => "developer"
    case Scorer => "scorer"
  }

  /** `impl Display for AgentRole`: writes the role name into the formatter's output. */
  function Fmt(role: AgentRole, out: string): (written: string)
    ensures |written| == |out| + |AsStr(role)|
    ensures written[..|out|] == out && written[|out|..] == AsStr(role)
  {
    out + AsStr(role)
  }

  /** Distinct roles have distinct names. */
  lemma AsStrInjective(a: AgentRole, b: AgentRole)
    requires AsStr(a) == AsStr(b)
    ensures a == b
  {
  }

  predicate IsLowerAscii(c: char) {
    'a' <= c <= 'z'
  }

  /** Every role name is non-empty lower-case ASCII, the same text the
      `rename_all = "lowercase"` serde attribute gives the variant. */
  lemma RoleNamesLowercase(role: AgentRole)
    ensures |AsStr(role)| > 0
    ensures forall i :: 0 <= i < |AsStr(role)| ==> IsLowerAscii(AsStr(role)[i])
  {
  }

  /** The derived `Deserialize` with `rename_all = "lowercase"`: a role is read
      back from exactly its lower-case variant name. */
  function RoleFromName(name: string): (r: Option<AgentRole>)
  {
    if name == "manager" then Some(Manager)
    else if name == "architect" then Some(Architect)
    else if name == "developer" then Some(Developer)
    else if name == "scorer" then Some(Scorer)
    else None
  }

  /** The role name and the serde variant name agree in both directions. */
  lemma RoleNameRoundTrip(role: AgentRole, name: string)
    ensures RoleFromName(AsStr(role)) == Some(role)
    ensures RoleFromName(name) == Some(role) ==> name == AsStr(role)
  {
  }

  // ---------------------------------------------------------------- agent ids

  /** A participant: a role and, for a developer slot, its index. */
  datatype AgentId = AgentId(role: AgentRole, index: Option<U8>)

  /** `AgentId::new_singleton`. */
  function NewSingleton(role: AgentRole): (id: AgentId)
    ensures id.role == role && id.index == None
  {
    AgentId(role, None)
  }

  /** `AgentId::new_developer`. */
  function NewDeveloper(index: U8): (id: AgentId)
    ensures id.role == Developer && id.index == Some(index)
  {
    AgentId(Developer, Some(index))
  }

  /** `Display` of an `AgentId`. */
  function IdDisplay(id: AgentId): (s: string)
    ensures |AsStr(id.role)| <= |s| && s[..|AsStr(id.role)|] == AsStr(id.role)
    ensures id.index.None? <==> |s| == |AsStr(id.role)|
  {
    match id.index
    case None => AsStr(id.role)
    case Some(i) => AsStr(id.role) + "-" + NatToString(i)
  }

  /** `AgentId::socket_name`: the file name stem of the agent's socket. */
  function SocketName(id: AgentId): (name: string)
    ensures |name| > 0 && forall i :: 0 <= i < |name| ==> name[i] != '/'
  {
    RoleNamesLowercase(id.role);
    IdDisplay(id)
  }

  /** The position of the first `-` in `s`, or `|s|` when there is none. */
  function FirstDash(s: string): (k: nat)
    ensures k <= |s|
    ensures forall i :: 0 <= i < k ==> s[i] != '-'
    ensures k < |s| ==> s[k] == '-'
  {
    if s == [] || s[0] == '-' then 0 else 1 + FirstDash(s[1..])
  }

  /** How a rendered id splits: the role name up to the first `-`, and after
      it the decimal index, which is present exactly when the id has one. */
  lemma DisplayLayout(id: AgentId)
    ensures var s := IdDisplay(id);
      && FirstDash(s) == |AsStr(id.role)|
      && s[..FirstDash(s)] == AsStr(id.role)
      && (id.index.None? <==> FirstDash(s) == |s|)
      && (id.index.Some? ==> s[FirstDash(s) + 1..] == NatToString(id.index.value))
  {
    var s, name := IdDisplay(id), AsStr(id.role);
    RoleNamesLowercase(id.role);
    assert forall i :: 0 <= i < |name| ==> s[i] == name[i] && s[i] != '-';
    assert |name| <= |s| && (id.index.Some? ==> s[|name|] == '-');
  }

  /** Distinct agent ids get distinct socket names, so no two agents share a socket. */
  lemma SocketNameInjective(a: AgentId, b: AgentId)
    requires SocketName(a) == SocketName(b)
    ensures a == b
  {
    DisplayLayout(a);
    DisplayLayout(b);
    AsStrInjective(a.role, b.role);
    if a.index.Some? {
      NatToStringInjective(a.index.value, b.index.value);
    }
  }

  /** A developer id renders as `developer-` followed by its index. */
  lemma DeveloperDisplay(index: U8)
    ensures IdDisplay(NewDeveloper(index)) == "developer-" + NatToString(index)
  {
  }
}
