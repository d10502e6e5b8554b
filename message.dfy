/** The message exchanged between agents (src/transport/message.rs, lines 1-64). */
module Messages {
  import opened Wrappers
  import opened Primitives
  import opened Roles

  /** A UUID: sixteen bytes. Fresh ids come from `Uuid::new_v4`, a random
      source, so every operation that creates a message takes its id as an
      argument. */
  type Uuid = b: seq<U8> | |b| == 16 witness [0, 0, 0, 0, 0, 0, 0, 0, 0, 0, 0, 0, 0, 0, 0, 0]

  /** `Debug` of a `Uuid`: the hyphenated lower-case form, 8-4-4-4-12 hex
      digits, each group the bytes of its part of the UUID. */
  function UuidDebug(u: Uuid): (s: string)
    ensures |s| == 36
    ensures s[8] == '-' && s[13] == '-' && s[18] == '-' && s[23] == '-'
    ensures s[..8] == HexBytes(u[..4]) && s[9..13] == HexBytes(u[4..6]) && s[14..18] == HexBytes(u[6..8])
    ensures s[19..23] == HexBytes(u[8..10]) && s[24..] == HexBytes(u[10..])
  {
    var g0, g1, g2, g3, g4 := HexBytes(u[..4]), HexBytes(u[4..6]), HexBytes(u[6..8]), HexBytes(u[8..10]), HexBytes(u[10..]);
    Hyphenated(g0, g1, g2, g3, g4);
    g0 + "-" + g1 + "-" + g2 + "-" + g3 + "-" + g4
  }

  /** Where the groups of an 8-4-4-4-12 hyphenated string sit. */
  lemma Hyphenated(g0: string, g1: string, g2: string, g3: string, g4: string)
    requires |g0| == 8 && |g1| == 4 && |g2| == 4 && |g3| == 4 && |g4| == 12
    ensures var s := g0 + "-" + g1 + "-" + g2 + "-" + g3 + "-" + g4;
      && |s| == 36
      && s[8] == '-' && s[13] == '-' && s[18] == '-' && s[23] == '-'
      && s[..8] == g0 && s[9..13] == g1 && s[14..18] == g2 && s[19..23] == g3 && s[24..] == g4
  {
    var s := g0 + "-" + g1 + "-" + g2 + "-" + g3 + "-" + g4;
    assert s == g0 + ("-" + (g1 + ("-" + (g2 + ("-" + (g3 + ("-" + g4)))))));
  }

  /** Equal renderings of two byte strings of one length mean equal bytes. */
  lemma HexBytesInjective(a: seq<U8>, b: seq<U8>)
    requires |a| == |b| && HexBytes(a) == HexBytes(b)
    ensures a == b
  {
    forall i | 0 <= i < |a|
      ensures a[i] == b[i]
    {
      HexByteInjective(a[i], b[i]);
    }
  }

  /** Distinct UUIDs print differently. */
  lemma UuidDebugInjective(u: Uuid, v: Uuid)
    requires UuidDebug(u) == UuidDebug(v)
    ensures u == v
  {
    var s, t := UuidDebug(u), UuidDebug(v);
    assert s[..8] == t[..8] && s[9..13] == t[9..13] && s[14..18] == t[14..18];
    assert s[19..23] == t[19..23] && s[24..] == t[24..];
    HexBytesInjective(u[..4], v[..4]);
    HexBytesInjective(u[4..6], v[4..6]);
    HexBytesInjective(u[6..8], v[6..8]);
    HexBytesInjective(u[8..10], v[8..10]);
    HexBytesInjective(u[10..], v[10..]);
    GroupsEqual(u, v);
  }

  /** A 16-byte string is fixed by its 4-2-2-2-6 groups. */
  lemma GroupsEqual(u: Uuid, v: Uuid)
    requires u[..4] == v[..4] && u[4..6] == v[4..6] && u[6..8] == v[6..8]
    requires u[8..10] == v[8..10] && u[10..] == v[10..]
    ensures u == v
  {
    forall i | 0 <= i < 16
      ensures u[i] == v[i]
    {
      if i < 4 { assert u[i] == u[..4][i] && v[i] == v[..4][i]; }
      else if i < 6 { assert u[i] == u[4..6][i - 4] && v[i] == v[4..6][i - 4]; }
      else if i < 8 { assert u[i] == u[6..8][i - 6] && v[i] == v[6..8][i - 6]; }
      else if i < 10 { assert u[i] == u[8..10][i - 8] && v[i] == v[8..10][i - 8]; }
      else { assert u[i] == u[10..][i - 10] && v[i] == v[10..][i - 10]; }
    }
  }

  /** `Debug` of an `Option<Uuid>`: `None`, or the UUID inside `Some(...)`. */
  function TaskIdDebug(t: Option<Uuid>): (s: string)
    ensures t.None? <==> |s| == 4
    ensures t.Some? ==> |s| == 42 && s[..5] == "Some(" && s[5..41] == UuidDebug(t.value) && s[41] == ')'
  {
    match t
    case None => "None"
    case Some(u) =>
      var s := "Some(" + UuidDebug(u) + ")";
      assert s[5..41] == UuidDebug(u);
      s
  }

  /** Distinct task references print differently. */
  lemma TaskIdDebugInjective(a: Option<Uuid>, b: Option<Uuid>)
    requires TaskIdDebug(a) == TaskIdDebug(b)
    ensures a == b
  {
    if a.Some? {
      UuidDebugInjective(a.value, b.value);
    }
  }

  datatype MessageKind =
    | TaskAssignment
    | TaskComplete
    | TaskGiveUp
    | Interrupt
    | ArchitectReview
    | Info
    | Evaluation
    | Observation

  datatype AgentMessage = AgentMessage(
    id: Uuid,
    from: AgentId,
    to: AgentId,
    kind: MessageKind,
    content: string,
    taskId: Option<Uuid>)

  /** `AgentMessage::new`, with `id` the value `Uuid::new_v4` produced. */
  function New(id: Uuid, from: AgentId, to: AgentId, kind: MessageKind, content: string): (m: AgentMessage)
    ensures m.id == id && m.from == from && m.to == to && m.kind == kind && m.content == content
    ensures m.taskId == None
  {
    AgentMessage(id, from, to, kind, content, None)
  }

  /** `AgentMessage::with_task`: sets the task reference and nothing else. */
  function WithTask(m: AgentMessage, taskId: Uuid): (r: AgentMessage)
    ensures r.taskId == Some(taskId)
    ensures r.id == m.id && r.from == m.from && r.to == m.to && r.kind == m.kind && r.content == m.content
  {
    m.(taskId := Some(taskId))
  }
}
