/** The run-time reconfiguration protocol handler (jccl::XMLConfigCommunicator):
    it accepts streams named xml_config, parses them into a document tree and
    interprets the commands in it, queueing chunk additions and removals at
    the ConfigManager and sending the active configuration or the chunk
    descriptions back over the connection. */
module ConfigCommunicator {
  import opened Wrappers
  import opened Text

  datatype NodeKind = DocumentNode | ElementNode | OtherNode

  /** A DOM node: its kind, its name and its children in sibling order. */
  datatype DomNode = DomNode(kind: NodeKind, name: string, children: seq<DomNode>)

  /** A configuration chunk, reduced to what identifies it. */
  datatype ConfigChunk = ConfigChunk(descToken: string, name: string)

  /** What is queued at the ConfigManager. */
  datatype PendingOp = PendingAdd(db: seq<ConfigChunk>) | PendingRemove(db: seq<ConfigChunk>)

  /** What is queued on the connection: a copy of the active configuration
      (the flag is the command's second argument), or the chunk description
      database, which is not part of this model. */
  datatype Command = SendChunkDB(db: seq<ConfigChunk>, all: bool) | SendDescDB

  /** The result of interpreting a node and the effects it had, in order. */
  datatype Effect = Effect(ok: bool, ops: seq<PendingOp>, cmds: seq<Command>)

  /** XMLConfigIOHandler::buildChunkDB, which is not part of this model: it
      reads the chunks of one node into a database and reports success. */
  type ChunkBuilder = (seq<ConfigChunk>, DomNode) -> (bool, seq<ConfigChunk>)

  const NO_EFFECT: Effect := Effect(true, [], [])

  /** acceptsStreamIdentifier: strcasecmp sees id.c_str(), that is the text
      before the first NUL. */
  function AcceptsStreamIdentifier(id: string): (r: bool)
    ensures '\0' !in id ==> (r <==> Lower(id) == "xml_config")
  {
    EqualsIgnoreCaseIffLower(CString(id), "xml_config");
    EqualsIgnoreCase(CString(id), "xml_config")
  }

  /** An identifier with trailing text after a NUL is accepted when the text
      before the NUL is xml_config. */
  lemma AcceptsUpToNul(id: string, tail: string)
    requires EqualsIgnoreCase(id, "xml_config")
    ensures AcceptsStreamIdentifier(id + "\0" + tail)
  {
    var s := id + "\0" + tail;
    forall i | 0 <= i < |id|
      ensures id[i] != '\0'
    {
      assert LowerAscii(id[i]) == LowerAscii("xml_config"[i]);
    }
    CStringOfPrefix(id, "\0" + tail);
    assert s == id + ("\0" + tail);
  }

  lemma {:induction false} CStringOfPrefix(a: string, b: string)
    requires '\0' !in a && |b| > 0 && b[0] == '\0'
    ensures CString(a + b) == a
  {
    if a != [] {
      assert (a + b)[1..] == a[1..] + b;
      CStringOfPrefix(a[1..], b);
    } else {
      assert a + b == b;
    }
  }

  /** Sequencing with short-circuit: once a result is false, nothing after
      it is evaluated. */
  function Then(first: Effect, second: Effect): (r: Effect)
    ensures !first.ok ==> r == first
    ensures first.ok ==> r == Effect(second.ok, first.ops + second.ops, first.cmds + second.cmds)
  {
    if !first.ok then first
    else Effect(second.ok, first.ops + second.ops, first.cmds + second.cmds)
  }

  lemma ThenAssociative(a: Effect, b: Effect, c: Effect)
    ensures Then(Then(a, b), c) == Then(a, Then(b, c))
  {
  }

  /** A document node's first i children, with the conjunction
      short-circuiting: the order in which the loop meets them. */
  function InterpretUpTo(doc: DomNode, i: nat, active: seq<ConfigChunk>, build: ChunkBuilder): Effect
    requires i <= |doc.children|
    decreases doc, 0, i
  {
    if i == 0 then NO_EFFECT
    else Then(InterpretUpTo(doc, i - 1, active, build), Interpret(doc.children[i - 1], active, build))
  }

  /** Taking the children from the left agrees with taking them from the
      right: the first i, then the rest, is all of them. */
  lemma {:induction false} UpToThenFrom(doc: DomNode, i: nat, active: seq<ConfigChunk>, build: ChunkBuilder)
    requires i <= |doc.children|
    ensures Then(InterpretUpTo(doc, i, active, build), InterpretFrom(doc, i, active, build)) == InterpretFrom(doc, 0, active, build)
    decreases i
  {
    if i > 0 {
      UpToThenFrom(doc, i - 1, active, build);
      ThenAssociative(InterpretUpTo(doc, i - 1, active, build), Interpret(doc.children[i - 1], active, build), InterpretFrom(doc, i, active, build));
    }
  }

  lemma UpToIsFrom(doc: DomNode, n: nat, active: seq<ConfigChunk>, build: ChunkBuilder)
    requires n == |doc.children|
    ensures InterpretUpTo(doc, n, active, build) == InterpretFrom(doc, 0, active, build)
  {
    UpToThenFrom(doc, n, active, build);
    var u := InterpretUpTo(doc, n, active, build);
    assert u.ops + [] == u.ops && u.cmds + [] == u.cmds;
  }

  /** The children loops of apply_chunks and remove_chunks from the i-th
      child on: each buildChunkDB call is made only while all earlier ones
      succeeded. */
  function BuildFrom(cs: seq<DomNode>, i: nat, db: seq<ConfigChunk>, build: ChunkBuilder): (bool, seq<ConfigChunk>)
    requires i <= |cs|
    decreases |cs| - i
  {
    if i == |cs| then (true, db)
    else
      var (ok, db') := build(db, cs[i]);
      if !ok then (false, db') else BuildFrom(cs, i + 1, db', build)
  }

  /** interpretDOM_Node, given the active configuration and buildChunkDB. */
  function Interpret(doc: DomNode, active: seq<ConfigChunk>, build: ChunkBuilder): Effect
    decreases doc, 1, 0
  {
    match doc.kind
    case DocumentNode => InterpretFrom(doc, 0, active, build)
    case ElementNode =>
      if EqualsIgnoreCase(doc.name, "apply_chunks") then
        var (ok, db) := BuildFrom(doc.children, 0, [], build);
        Effect(ok, if ok then [PendingAdd(db)] else [], [])
      else if EqualsIgnoreCase(doc.name, "remove_chunks") then
        var (ok, db) := BuildFrom(doc.children, 0, [], build);
        Effect(ok, if ok then [PendingRemove(db)] else [], [])
      else if EqualsIgnoreCase(doc.name, "remove_descs") then NO_EFFECT
      else if EqualsIgnoreCase(doc.name, "request_current_chunks") then Effect(true, [], [SendChunkDB(active, true)])
      else if EqualsIgnoreCase(doc.name, "request_current_descs") then Effect(true, [], [SendDescDB])
      else NO_EFFECT
    case OtherNode => NO_EFFECT
  }

  /** A document node's children from the i-th on, with the conjunction
      short-circuiting. */
  function InterpretFrom(doc: DomNode, i: nat, active: seq<ConfigChunk>, build: ChunkBuilder): Effect
    requires i <= |doc.children|
    decreases doc, 0, |doc.children| - i
  {
    if i == |doc.children| then NO_EFFECT
    else Then(Interpret(doc.children[i], active, build), InterpretFrom(doc, i + 1, active, build))
  }

  /** readStream, given what the parser made of the stream (None when it
      fails). */
  function ReadStreamSpec(parsed: Option<DomNode>, active: seq<ConfigChunk>, build: ChunkBuilder): (r: Effect)
    ensures parsed.None? ==> r == Effect(false, [], [])
    ensures parsed.Some? ==> r == Interpret(parsed.value, active, build)
  {
    if parsed.None? then Effect(false, [], []) else Interpret(parsed.value, active, build)
  }

  // ---------------------------------------------------------------------
  // Properties of the interpretation

  /** A document's result is the conjunction of its children's results. */
  lemma {:induction false} DocumentIsConjunction(doc: DomNode, i: nat, active: seq<ConfigChunk>, build: ChunkBuilder)
    requires i <= |doc.children|
    ensures InterpretFrom(doc, i, active, build).ok <==>
      forall j :: i <= j < |doc.children| ==> Interpret(doc.children[j], active, build).ok
    decreases |doc.children| - i
  {
    if i < |doc.children| {
      DocumentIsConjunction(doc, i + 1, active, build);
    }
  }

  /** After the first child that fails, no later child has any effect. */
  lemma {:induction false} StopsAtFirstFailure(doc: DomNode, k: nat, active: seq<ConfigChunk>, build: ChunkBuilder)
    requires k < |doc.children| && !Interpret(doc.children[k], active, build).ok
    requires forall j :: 0 <= j < k ==> Interpret(doc.children[j], active, build).ok
    ensures InterpretFrom(doc, 0, active, build) == InterpretFrom(doc.(children := doc.children[..k + 1]), 0, active, build)
  {
    var short := doc.(children := doc.children[..k + 1]);
    PrefixAgrees(doc, short, k, 0, active, build);
  }

  lemma {:induction false} PrefixAgrees(doc: DomNode, short: DomNode, k: nat, i: nat, active: seq<ConfigChunk>, build: ChunkBuilder)
    requires k < |doc.children| && short.children == doc.children[..k + 1] && i <= k
    requires !Interpret(doc.children[k], active, build).ok
    ensures InterpretFrom(doc, i, active, build) == InterpretFrom(short, i, active, build)
    decreases k - i
  {
    assert short.children[i] == doc.children[i];
    if i < k {
      PrefixAgrees(doc, short, k, i + 1, active, build);
    }
  }

  /** apply_chunks and remove_chunks queue their database exactly when every
      child chunk was built, and send nothing. */
  lemma ChunkCommands(doc: DomNode, active: seq<ConfigChunk>, build: ChunkBuilder)
    requires doc.kind == ElementNode
    requires EqualsIgnoreCase(doc.name, "apply_chunks") || EqualsIgnoreCase(doc.name, "remove_chunks")
    ensures var e := Interpret(doc, active, build); var b := BuildFrom(doc.children, 0, [], build);
      && e.ok == b.0 && e.cmds == []
      && (b.0 ==> e.ops == [if EqualsIgnoreCase(doc.name, "apply_chunks") then PendingAdd(b.1) else PendingRemove(b.1)])
      && (!b.0 ==> e.ops == [])
  {
    if EqualsIgnoreCase(doc.name, "remove_chunks") {
      assert LowerAscii(doc.name[0]) == 'r';
    }
  }

  /** remove_descs, unrecognised commands and nodes that are neither
      documents nor elements succeed with no effect. */
  lemma NoEffectNodes(doc: DomNode, active: seq<ConfigChunk>, build: ChunkBuilder)
    requires doc.kind == OtherNode || (doc.kind == ElementNode && !IsCommandWithEffect(doc.name))
    ensures Interpret(doc, active, build) == NO_EFFECT
  {
  }

  predicate IsCommandWithEffect(name: string)
  {
    || EqualsIgnoreCase(name, "apply_chunks") || EqualsIgnoreCase(name, "remove_chunks")
    || EqualsIgnoreCase(name, "request_current_chunks") || EqualsIgnoreCase(name, "request_current_descs")
  }

  /** Command names are matched ignoring case: renaming an element to
      another spelling of the same name changes nothing. */
  lemma CaseInsensitiveCommands(doc: DomNode, other: string, active: seq<ConfigChunk>, build: ChunkBuilder)
    requires doc.kind == ElementNode && EqualsIgnoreCase(doc.name, other)
    ensures Interpret(doc.(name := other), active, build) == Interpret(doc, active, build)
  {
    forall key: string
      ensures EqualsIgnoreCase(doc.name, key) <==> EqualsIgnoreCase(other, key)
    {
      EqualsIgnoreCaseEquivalence(other, doc.name, key);
      EqualsIgnoreCaseEquivalence(doc.name, other, key);
    }
  }

  // ---------------------------------------------------------------------
  // The objects

  /** jccl::ConfigManager, reduced to its pending queue and its active
      configuration. */
  class ConfigManager {
    var pending: seq<PendingOp>
    var active: seq<ConfigChunk>

    constructor (active: seq<ConfigChunk>)
      ensures pending == [] && this.active == active
    {
      pending := [];
      this.active := active;
    }
  }

  /** jccl::Connect, reduced to its outgoing command queue. */
  class Connect {
    var commands: seq<Command>

    constructor ()
      ensures commands == []
    {
      commands := [];
    }
  }

  class XMLConfigCommunicator {
    const configManager: ConfigManager
    const build: ChunkBuilder

    constructor (configManager: ConfigManager, build: ChunkBuilder)
      ensures this.configManager == configManager && this.build == build
    {
      this.configManager := configManager;
      this.build := build;
    }

    /** readStream: a stream that does not parse is rejected without being
        interpreted. */
    method ReadStream(con: Connect, parsed: Option<DomNode>) returns (retval: bool)
      modifies configManager, con
      ensures var e := ReadStreamSpec(parsed, old(configManager.active), build);
        && retval == e.ok
        && configManager.pending == old(configManager.pending) + e.ops
        && con.commands == old(con.commands) + e.cmds
        && configManager.active == old(configManager.active)
    {
      retval := parsed.Some?;
      if retval {
        retval := InterpretDOMNode(con, parsed.value);
      }
    }

    /** The apply_chunks / remove_chunks children loop. */
    method BuildChildren(cs: seq<DomNode>) returns (retval: bool, newchunkdb: seq<ConfigChunk>)
      ensures retval == BuildFrom(cs, 0, [], build).0
      ensures retval ==> newchunkdb == BuildFrom(cs, 0, [], build).1
    {
      retval := true;
      newchunkdb := [];
      var i := 0;
      while i < |cs|
        invariant 0 <= i <= |cs|
        invariant retval ==> BuildFrom(cs, i, newchunkdb, build) == BuildFrom(cs, 0, [], build)
        invariant !retval ==> !BuildFrom(cs, 0, [], build).0
      {
        if retval {
          var (ok, db) := build(newchunkdb, cs[i]);
          retval, newchunkdb := ok, db;
        }
        i := i + 1;
      }
    }

    method InterpretDOMNode(con: Connect, doc: DomNode) returns (retval: bool)
      modifies configManager, con
      ensures var e := Interpret(doc, old(configManager.active), build);
        && retval == e.ok
        && configManager.pending == old(configManager.pending) + e.ops
        && con.commands == old(con.commands) + e.cmds
        && configManager.active == old(configManager.active)
      decreases doc
    {
      retval := true;
      match doc.kind {
        case DocumentNode =>
          ghost var active := configManager.active;
          var i := 0;
          while i < |doc.children|
            invariant 0 <= i <= |doc.children|
            invariant configManager.active == active
            invariant retval == InterpretUpTo(doc, i, active, build).ok
            invariant configManager.pending == old(configManager.pending) + InterpretUpTo(doc, i, active, build).ops
            invariant con.commands == old(con.commands) + InterpretUpTo(doc, i, active, build).cmds
          {
            if retval {
              retval := InterpretDOMNode(con, doc.children[i]);
            }
            i := i + 1;
          }
          UpToIsFrom(doc, i, active, build);
        case ElementNode =>
          var name := doc.name;
          if EqualsIgnoreCase(name, "apply_chunks") {
            var newchunkdb;
            retval, newchunkdb := BuildChildren(doc.children);
            if retval {
              configManager.pending := configManager.pending + [PendingAdd(newchunkdb)];
            }
          } else if EqualsIgnoreCase(name, "remove_chunks") {
            var newchunkdb;
            retval, newchunkdb := BuildChildren(doc.children);
            if retval {
              configManager.pending := configManager.pending + [PendingRemove(newchunkdb)];
            }
          } else if EqualsIgnoreCase(name, "remove_descs") {
            // refused quietly
          } else if EqualsIgnoreCase(name, "request_current_chunks") {
            var db := configManager.active;
            con.commands := con.commands + [SendChunkDB(db, true)];
          } else if EqualsIgnoreCase(name, "request_current_descs") {
            con.commands := con.commands + [SendDescDB];
          }
        case OtherNode =>
      }
    }
  }
}
