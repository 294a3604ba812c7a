/** A session's entries and the one writer every change to them goes through.
  *
  * The functions say what each write does to the sequence of entries under an entry policy; the
  * class `EntryWriter` does the same in place on a session. A policy's redactor is any function
  * of the entry: `None` stands for a throw or for a value that is no entry at all.
  */
module SessionEntries {
  import opened Wrappers

  datatype Author = Assistant | Thinking

  datatype Role = UserRole | ModelRole(author: Author) | ToolRole | ForeignRole(name: string)

  datatype Entry =
    | UserEntry(content: string, timestamp: Option<int>, cleared: bool)
    | ModelEntry(author: Author, content: string, timestamp: Option<int>, isStreaming: bool, truncated: bool,
        suppressed: bool, persona: Option<string>, cleared: bool)
    | ToolEntry(toolName: string, toolInput: map<string, string>, timestamp: Option<int>, cleared: bool)
    // A role the engine does not know, which only a tool can store.
    | ForeignEntry(role: string, text: Option<string>, payload: string, timestamp: Option<int>, cleared: bool)

  function RoleOf(entry: Entry): Role {
    match entry
    case UserEntry(_, _, _) => UserRole
    case ModelEntry(author, _, _, _, _, _, _, _) => ModelRole(author)
    case ToolEntry(_, _, _, _) => ToolRole
    case ForeignEntry(role, _, _, _, _) => ForeignRole(role)
  }

  predicate IsOpen(entry: Entry) {
    entry.ModelEntry? && entry.isStreaming
  }

  /** The entry emptied in its slot: role and time stay, what it said goes. */
  function Cleared(entry: Entry): (r: Entry)
    ensures r.cleared && RoleOf(r) == RoleOf(entry) && r.timestamp == entry.timestamp && HoldsNothing(r)
    ensures IsOpen(r) == IsOpen(entry)
    ensures entry.ModelEntry? ==> r == entry.(content := "", cleared := true)
    ensures entry.ToolEntry? ==> r == entry.(toolInput := map[], cleared := true)
  {
    match entry
    case UserEntry(_, timestamp, _) => UserEntry("", timestamp, true)
    case ModelEntry(author, _, timestamp, isStreaming, truncated, suppressed, persona, _) =>
      ModelEntry(author, "", timestamp, isStreaming, truncated, suppressed, persona, true)
    case ToolEntry(toolName, _, timestamp, _) => ToolEntry(toolName, map[], timestamp, true)
    case ForeignEntry(role, text, _, timestamp, _) =>
      if text.Some? then ForeignEntry(role, Some(""), entry.payload, timestamp, true)
      else ForeignEntry(role, None, "", timestamp, true)
  }

  /** No text of the conversation and no tool argument is left in the entry. */
  predicate HoldsNothing(entry: Entry) {
    match entry
    case UserEntry(content, _, _) => content == ""
    case ModelEntry(_, content, _, _, _, _, _, _) => content == ""
    case ToolEntry(_, toolInput, _, _) => toolInput == map[]
    case ForeignEntry(_, text, payload, _, _) => if text.Some? then text.value == "" else payload == ""
  }

  // ----- The entry policy -----

  datatype Policy = Policy(maxContentEntries: Option<int>, redactEntry: Option<Entry -> Option<Entry>>)

  const NO_POLICY: Policy := Policy(None, None)

  predicate Usable(policy: Policy) {
    policy.maxContentEntries.Some? ==> policy.maxContentEntries.value >= 1
  }

  function Finalised(policy: Policy, entry: Entry): (r: Entry)
    ensures RoleOf(r) == RoleOf(entry)
  {
    if policy.redactEntry.None? || entry.UserEntry? then entry
    else
      var result := policy.redactEntry.value(entry);
      if result.Some? && RoleOf(result.value) == RoleOf(entry) then result.value else Cleared(entry)
  }

  // ----- The five writes -----

  function Append(policy: Policy, entries: seq<Entry>, entry: Entry): seq<Entry> {
    entries + [if IsOpen(entry) then entry else Finalised(policy, entry)]
  }

  function Grown(policy: Policy, entry: Entry, delta: string): Entry {
    if !entry.ModelEntry? || entry.cleared then entry
    else
      var grown := entry.(content := entry.content + delta);
      if grown.isStreaming then grown else Finalised(policy, grown)
  }

  function Truncated(entry: Entry): Entry {
    if entry.ModelEntry? then entry.(truncated := true) else entry
  }

  function Committed(policy: Policy, entry: Entry): Entry {
    if IsOpen(entry) then Finalised(policy, entry.(isStreaming := false)) else entry
  }

  /** A turn that ends cuts short what is still open. */
  function CutShort(policy: Policy, entry: Entry): Entry {
    if IsOpen(entry) then Finalised(policy, entry.(truncated := true, isStreaming := false)) else entry
  }

  function CloseOpen(policy: Policy, entries: seq<Entry>): (r: seq<Entry>)
    ensures |r| == |entries|
    ensures forall i :: 0 <= i < |r| ==> r[i] == CutShort(policy, entries[i])
  {
    if entries == [] then []
    else CloseOpen(policy, entries[..|entries| - 1]) + [CutShort(policy, entries[|entries| - 1])]
  }

  function Kept(entry: Entry): Entry {
    if entry.cleared then entry else Cleared(entry)
  }

  /** Everything before `keptFrom` emptied, once. */
  function ClearTo(entries: seq<Entry>, keptFrom: int): (r: seq<Entry>)
    requires keptFrom <= |entries|
    ensures |r| == |entries|
    ensures forall i :: 0 <= i < |r| ==> r[i] == if i < keptFrom then Kept(entries[i]) else entries[i]
    decreases keptFrom
  {
    if keptFrom <= 0 then entries
    else ClearTo(entries, keptFrom - 1)[keptFrom - 1 := Kept(entries[keptFrom - 1])]
  }

  function ClearBeyond(policy: Policy, entries: seq<Entry>): seq<Entry>
    requires Usable(policy)
  {
    if policy.maxContentEntries.None? then entries
    else ClearTo(entries, |entries| - policy.maxContentEntries.value)
  }

  function TurnClosed(policy: Policy, entries: seq<Entry>): seq<Entry>
    requires Usable(policy)
  {
    ClearBeyond(policy, CloseOpen(policy, entries))
  }

  // ----- Any sequence of writes -----

  datatype Write =
    | Appends(entry: Entry)
    | Adds(index: nat, delta: string)
    | Truncates(index: nat)
    | Commits(index: nat)
    | Closes

  function Apply(policy: Policy, entries: seq<Entry>, write: Write): seq<Entry>
    requires Usable(policy)
  {
    match write
    case Appends(entry) => Append(policy, entries, entry)
    case Adds(index, delta) =>
      if index < |entries| then entries[index := Grown(policy, entries[index], delta)] else entries
    case Truncates(index) => if index < |entries| then entries[index := Truncated(entries[index])] else entries
    case Commits(index) => if index < |entries| then entries[index := Committed(policy, entries[index])] else entries
    case Closes => TurnClosed(policy, entries)
  }

  function ApplyAll(policy: Policy, entries: seq<Entry>, writes: seq<Write>): seq<Entry>
    requires Usable(policy)
    decreases |writes|
  {
    if writes == [] then entries else ApplyAll(policy, Apply(policy, entries, writes[0]), writes[1..])
  }

  // ----- The writer in place -----

  class Session {
    var entries: seq<Entry>

    constructor (entries: seq<Entry>)
      ensures this.entries == entries
    {
      this.entries := entries;
    }
  }

  class EntryWriter {
    const policy: Policy

    constructor (policy: Policy)
      requires Usable(policy)
      ensures this.policy == policy
    {
      this.policy := policy;
    }

    /** Refused at construction, before any conversation is stored, when the bound cannot be honoured. */
    static method Create(policy: Policy) returns (writer: Option<EntryWriter>)
      ensures writer.Some? <==> Usable(policy)
      ensures writer.Some? ==> fresh(writer.value) && writer.value.policy == policy
    {
      if policy.maxContentEntries.Some? && !(policy.maxContentEntries.value >= 1) {
        return None;
      }
      var made := new EntryWriter(policy);
      return Some(made);
    }

    method AppendEntry(session: Session, entry: Entry) returns (index: nat)
      modifies session`entries
      ensures index == |old(session.entries)|
      ensures session.entries == Append(policy, old(session.entries), entry)
    {
      index := |session.entries|;
      session.entries := session.entries + [if IsOpen(entry) then entry else Finalised(policy, entry)];
    }

    method AppendDelta(session: Session, index: nat, delta: string)
      requires index < |session.entries|
      modifies session`entries
      ensures session.entries == old(session.entries)[index := Grown(policy, old(session.entries)[index], delta)]
    {
      var entry := session.entries[index];
      if !entry.ModelEntry? {
        return;
      }
      if entry.cleared {
        return;
      }
      entry := entry.(content := entry.content + delta);
      session.entries := session.entries[index := entry];
      if !entry.isStreaming {
        session.entries := session.entries[index := Finalised(policy, entry)];
      }
    }

    method MarkTruncated(session: Session, index: nat)
      requires index < |session.entries|
      modifies session`entries
      ensures session.entries == old(session.entries)[index := Truncated(old(session.entries)[index])]
    {
      var entry := session.entries[index];
      if entry.ModelEntry? {
        session.entries := session.entries[index := entry.(truncated := true)];
      }
    }

    method CommitEntry(session: Session, index: nat)
      requires index < |session.entries|
      modifies session`entries
      ensures session.entries == old(session.entries)[index := Committed(policy, old(session.entries)[index])]
    {
      var entry := session.entries[index];
      if !IsOpen(entry) {
        return;
      }
      session.entries := session.entries[index := Finalised(policy, entry.(isStreaming := false))];
    }

    method CloseTurn(session: Session)
      requires Usable(policy)
      modifies session`entries
      ensures session.entries == TurnClosed(policy, old(session.entries))
    {
      ghost var was := session.entries;
      for index := 0 to |session.entries|
        invariant |session.entries| == |was|
        invariant forall i :: 0 <= i < |was| ==>
          session.entries[i] == if i < index then CutShort(policy, was[i]) else was[i]
      {
        var entry := session.entries[index];
        if IsOpen(entry) {
          entry := entry.(truncated := true, isStreaming := false);
          session.entries := session.entries[index := Finalised(policy, entry)];
        }
      }
      assert session.entries == CloseOpen(policy, was);
      ClearBeyondBound(session);
    }

    method ClearBeyondBound(session: Session)
      requires Usable(policy)
      modifies session`entries
      ensures session.entries == ClearBeyond(policy, old(session.entries))
    {
      if policy.maxContentEntries.None? {
        return;
      }
      ghost var was := session.entries;
      var keptFrom := |session.entries| - policy.maxContentEntries.value;
      var index := 0;
      while index < keptFrom
        invariant |session.entries| == |was| && (index <= keptFrom || index == 0)
        invariant forall i :: 0 <= i < |was| ==> session.entries[i] == if i < index then Kept(was[i]) else was[i]
      {
        var entry := session.entries[index];
        if !entry.cleared {
          session.entries := session.entries[index := Cleared(entry)];
        }
        index := index + 1;
      }
      assert session.entries == ClearTo(was, keptFrom);
    }
  }
}
