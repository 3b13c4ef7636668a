/** The message vocabulary shared by the context modules, and the sequence
    folds they are specified with. */
module Messages {

  datatype Option<+T> = None | Some(value: T)

  datatype Result<+T, +E> = Ok(value: T) | Err(error: E)

  datatype ContextError = Conflict | BudgetExceeded

  datatype Role = System | User | Assistant | Tool

  datatype Block =
    | TextBlock(text: string)
    | FileBlock(artifactId: string, mediaType: string)

  datatype ToolCall = ToolCall(id: string, name: string, arguments: string)

  datatype Message = Message(
    role: Role,
    content: seq<Block>,
    name: Option<string>,
    toolCallId: Option<string>,
    toolCalls: seq<ToolCall>)

  const CONTEXT_SUMMARY_NAME := "runtime_context_summary"
  const REPAIR_MESSAGE_NAME := "runtime_repair"
  const WORKING_STATE_NAME := "runtime_working_state"
  const SKILL_CATALOG_NAME := "runtime_skill_catalog"
  const LOADED_SKILLS_NAME := "runtime_loaded_skills"

  /** The ids a tool-call message asks for, typed like the `toolCallId` that answers one. */
  function CallIds(m: Message): set<Option<string>> {
    set c | c in m.toolCalls :: Some(c.id)
  }

  function ResultIds(results: seq<Message>): set<Option<string>> {
    set m | m in results :: m.toolCallId
  }

  function Flatten<T>(parts: seq<seq<T>>): seq<T> {
    if parts == [] then [] else parts[0] + Flatten(parts[1..])
  }

  lemma {:induction false} Regroup<T>(a: seq<T>, b: seq<T>, c: seq<T>)
    ensures (a + b) + c == a + (b + c)
  {
  }

  lemma {:induction false} FlattenAppend<T>(a: seq<seq<T>>, b: seq<seq<T>>)
    ensures Flatten(a + b) == Flatten(a) + Flatten(b)
  {
    if a == [] {
      assert a + b == b;
    } else {
      assert (a + b)[1..] == a[1..] + b;
      FlattenAppend(a[1..], b);
    }
  }

  lemma {:induction false} FlattenSnoc<T>(a: seq<seq<T>>, last: seq<T>)
    ensures Flatten(a + [last]) == Flatten(a) + last
  {
    FlattenAppend(a, [last]);
    assert [last][1..] == [];
  }

  lemma {:induction false} FlattenUnsnoc<T>(a: seq<seq<T>>)
    requires a != []
    ensures Flatten(a) == Flatten(a[..|a| - 1]) + a[|a| - 1]
  {
    assert a == a[..|a| - 1] + [a[|a| - 1]];
    FlattenSnoc(a[..|a| - 1], a[|a| - 1]);
  }

  lemma {:induction false} FlattenOne<T>(part: seq<T>)
    ensures Flatten([part]) == part
  {
    assert [part][1..] == [];
  }
}
