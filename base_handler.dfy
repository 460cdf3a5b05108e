/** What every state handler shares: the incoming update, the table from
    command text to callback, the handler of the state that comes next, and
    the keyboard built from that next handler's commands. Calls a handler
    makes on the bot's abstract operations are recorded in a `BotLog`. */
module BaseHandler {
  import opened Wrappers
  import opened Dict
  import opened Utils

  /** The parts of a Telegram message the handlers read. Every update is
      taken to carry a message, and every message a text. */
  datatype Message = Message(chatId: int, fromUserId: int, text: string)

  datatype Update = Update(message: Message)

  /** The library's per-call context; the handlers only store it. */
  datatype CallbackContext = CallbackContext

  /** The handler methods a command or sub-state can be routed to. */
  datatype Callback =
    | DefaultHandler
    | PrevExercise | NextExercise | PrevSet | NextSet | UpdateExerciseCommand | UpdateSetCommand
    | TypeExpression | TypeSet | TypeWhat | TypeNewValue
    | StartWorkout | CancelCommand

  /** How a handler call ends: normally, or with the exception it raises. */
  datatype Outcome = Completed | Raised(error: string)

  /** A call on one of the bot's operations whose effect lies outside the
      model: sending a message, advancing the workout's exercise index. */
  datatype BotCall = SendMessage(chatId: int, text: string) | IncrementExerciseIndex(chatId: int)

  /** The calls made so far, oldest first. */
  class BotLog {
    var calls: seq<BotCall>

    constructor()
      ensures calls == []
    {
      calls := [];
    }

    method Record(call: BotCall)
      modifies this
      ensures calls == old(calls) + [call]
    {
      calls := calls + [call];
    }
  }

  /** `default_handler`'s reply text. It is never delivered: the method
      calls `send_message` without awaiting it, and every caller either
      calls it without its argument or awaits its None result, both of
      which raise TypeError. */
  const InvalidCommandText: string := "Invalid command. Please try again."

  class BaseStateHandler {
    var nextState: BaseStateHandler?
    var update: Option<Update>
    var context: Option<CallbackContext>
    var callbacks: Dict<string, Callback>

    constructor()
      ensures nextState == null && update == None && context == None
      ensures callbacks.Valid() && callbacks.Keys() == []
    {
      nextState := null;
      update := None;
      context := None;
      callbacks := Empty();
    }

    /** A subclass constructor replacing the empty table with its own. */
    method SetCallbacks(table: Dict<string, Callback>)
      modifies this`callbacks
      ensures callbacks == table
    {
      callbacks := table;
    }

    method SetNextState(next: BaseStateHandler?)
      modifies this`nextState
      ensures nextState == next
    {
      nextState := next;
    }

    /** The first two lines of every `handle_message`. */
    method Receive(u: Update, c: CallbackContext)
      modifies this`update, this`context
      ensures update == Some(u) && context == Some(c)
    {
      update := Some(u);
      context := Some(c);
    }

    /** `get_callbacks`: the table's keys, each once, in insertion order. */
    function GetCallbacks(): (keys: seq<string>)
      reads this
      requires callbacks.Valid()
      ensures forall k :: k in keys <==> k in callbacks.entries
      ensures forall i, j :: 0 <= i < j < |keys| ==> keys[i] != keys[j]
    {
      callbacks.Keys()
    }

    /** `get_markup_keyboard` with the keys taken as a list: the next state's
        commands in rows of two, without padding. */
    method GetMarkupKeyboard() returns (markup: seq<seq<string>>)
      requires nextState != null && nextState.callbacks.Valid()
      ensures markup == Pairs(nextState.GetCallbacks())
    {
      var keys := nextState.GetCallbacks();
      markup := ChunkPairs(keys);
    }
  }

  /** What `get_callbacks` can hand back: the `dict_keys` view it returns,
      or a list of the same keys. */
  datatype KeysValue = KeysView(items: seq<string>) | ListOfKeys(items: seq<string>)

  /** `keys[i:j]` inside the keys: a list gives the keys from `i` up to `j`
      or its end, while a view is not subscriptable and raises TypeError. */
  function Slice(keys: KeysValue, i: nat, j: nat): (r: Result<seq<string>, string>)
    requires i <= j && i <= |keys.items|
    ensures r.Failure? <==> keys.KeysView?
    ensures r.Failure? ==> r.error == "TypeError"
    ensures r.Success? ==> r.value == keys.items[i..if j < |keys.items| then j else |keys.items|]
  {
    match keys
    case KeysView(_) => Failure("TypeError")
    case ListOfKeys(items) => Success(items[i..if j < |items| then j else |items|])
  }

  /** The loop `for i in range(start, len(keys), 2): markup.append(keys[i:i+2])`,
      stopped by the first slice that raises. */
  function ChunkFrom(keys: KeysValue, start: nat): (r: Result<seq<seq<string>>, string>)
    decreases |keys.items| - start
  {
    if start >= |keys.items| then Success([])
    else match Slice(keys, start, start + 2)
      case Failure(e) => Failure(e)
      case Success(row) =>
        match ChunkFrom(keys, start + 2)
        case Failure(e) => Failure(e)
        case Success(rows) => Success([row] + rows)
  }

  /** On a list the loop builds the pairs of the keys from `start` on. */
  lemma {:induction false} ChunkFromList(keys: seq<string>, start: nat)
    requires start <= |keys|
    ensures ChunkFrom(ListOfKeys(keys), start) == Success(Pairs(keys[start..]))
    decreases |keys| - start
  {
    var rest := keys[start..];
    if |rest| > 2 {
      ChunkFromList(keys, start + 2);
      assert rest[..2] == keys[start..start + 2];
      assert rest[2..] == keys[start + 2..];
    } else if |rest| > 0 {
      assert keys[start..|keys|] == rest;
      assert Slice(ListOfKeys(keys), start, start + 2) == Success(rest);
      assert ChunkFrom(ListOfKeys(keys), start + 2) == Success([]);
      assert ChunkFrom(ListOfKeys(keys), start) == Success([rest] + []);
      assert [rest] + [] == [rest] == Pairs(rest);
    }
  }

  /** `get_markup_keyboard` as written: the loop runs over the `dict_keys`
      view that `get_callbacks` returns. */
  function MarkupKeyboardAsWritten(keys: seq<string>): (r: Result<seq<seq<string>>, string>)
    ensures r.Failure? <==> |keys| > 0
    ensures r.Failure? ==> r.error == "TypeError"
    ensures r.Success? ==> r.value == []
  {
    ChunkFrom(KeysView(keys), 0)
  }

  /** As written, the keyboard of any next state that has a command fails,
      while the same loop over a list of the keys gives their pairs: ceil(n / 2)
      rows reading back as the commands. */
  lemma MarkupKeyboardAsWrittenFails(keys: seq<string>)
    requires |keys| > 0
    ensures MarkupKeyboardAsWritten(keys) == Failure("TypeError")
    ensures ChunkFrom(ListOfKeys(keys), 0) == Success(Pairs(keys))
    ensures |Pairs(keys)| == (|keys| + 1) / 2 > 0 && Flatten(Pairs(keys)) == keys
  {
    ChunkFromList(keys, 0);
    assert keys[0..] == keys;
    PairsCount(keys);
    PairsFlatten(keys);
  }
}
