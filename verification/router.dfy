/**
 * The update router: a command table, a table of pending continuations keyed
 * by user or chat id, the command matcher, and the dispatch precedence
 * (callback query, then command, then pending continuation, then the
 * invalid-input hook). Handlers are defunctionalised into the type `A`.
 */
module Router {
  import opened Base
  import opened Telegram
  import opened CommandGrammar

  /** A registered command: the description (a string-table key) and the handler. */
  datatype Command<A> = Command(description: string, handler: A)

  /** Where an update goes, and with which handler. */
  datatype Route<A> =
    | CallbackRoute(query: CallbackQuery, pendingHandler: Option<A>)  // the callback hook
    | CommandRoute(sender: int, action: A)   // a matched command, after clearing the sender's pending entry
    | PendingRoute(sender: int, action: A)   // the sender's pending continuation, left in place
    | InvalidRoute                           // the invalid-input hook
    | NoRoute                                // no effect

  /** The text the matcher sees: the message text lower-cased, or empty. */
  function CommandText(u: Update): string
  {
    match MessageText(u)
    case Some(t) => Lower(t)
    case None => ""
  }

  /** The handler of the command the update spells, if it is a message and the command is registered. */
  function ParseCommand<A>(commands: map<string, Command<A>>, botUsername: string, u: Update): (r: Option<A>)
    ensures r.Some? ==> u.MessageUpdate? && MatchCommand(CommandText(u), botUsername).Some?
    ensures r.Some? ==> var name := MatchCommand(CommandText(u), botUsername).value;
                        name in commands && r.value == commands[name].handler
  {
    if !u.MessageUpdate? then None
    else match MatchCommand(CommandText(u), botUsername)
      case Some(name) => if name in commands then Some(commands[name].handler) else None
      case None => None
  }

  /** A message whose lower-cased text spells a registered command yields that command's handler. */
  lemma ParseCommandComplete<A>(commands: map<string, Command<A>>, botUsername: string, u: Update, name: string)
    requires u.MessageUpdate? && Spells(CommandText(u), name, botUsername) && name in commands
    ensures ParseCommand(commands, botUsername, u) == Some(commands[name].handler)
  {
    MatchCommandComplete(CommandText(u), name, botUsername);
  }

  /** A handler is yielded only for a message whose lower-cased text spells a registered name. */
  lemma ParseCommandSound<A>(commands: map<string, Command<A>>, botUsername: string, u: Update)
    returns (name: string)
    requires ParseCommand(commands, botUsername, u).Some?
    ensures u.MessageUpdate? && name in commands && Spells(CommandText(u), name, botUsername)
    ensures ParseCommand(commands, botUsername, u) == Some(commands[name].handler)
  {
    name := MatchCommand(CommandText(u), botUsername).value;
    MatchCommandSound(CommandText(u), botUsername);
  }

  /** Whether the update is a callback query the router hands to the callback hook. */
  predicate IsRoutedCallback(u: Update)
  {
    u.CallbackQueryUpdate? && u.query.message.Some? && u.query.message.value.from.Some? && u.query.data.Some?
  }

  /** The sender of a message update, if it has one. */
  function Sender(u: Update): Option<int>
  {
    if u.MessageUpdate? && u.message.from.Some? then Some(u.message.from.value.id) else None
  }

  /** The dispatch decision for `u`, in the router's order of precedence. */
  function Classify<A>(commands: map<string, Command<A>>, pending: map<int, A>, botUsername: string, u: Update): (r: Route<A>)
    ensures r.CallbackRoute? <==> IsRoutedCallback(u)
    ensures r.CallbackRoute? ==>
              && r.query == u.query
              && r.pendingHandler == (if u.query.from.id in pending then Some(pending[u.query.from.id]) else None)
    ensures r.CommandRoute? <==> Sender(u).Some? && ParseCommand(commands, botUsername, u).Some?
    ensures r.CommandRoute? ==> r.sender == Sender(u).value && Some(r.action) == ParseCommand(commands, botUsername, u)
    ensures r.PendingRoute? <==> Sender(u).Some? && ParseCommand(commands, botUsername, u).None? && Sender(u).value in pending
    ensures r.PendingRoute? ==> r.sender == Sender(u).value && r.action == pending[r.sender]
    ensures r.InvalidRoute? <==> Sender(u).Some? && ParseCommand(commands, botUsername, u).None? && Sender(u).value !in pending
  {
    if IsRoutedCallback(u) then
      var id := u.query.from.id;
      CallbackRoute(u.query, if id in pending then Some(pending[id]) else None)
    else
      match Sender(u)
      case None => NoRoute
      case Some(id) =>
        match ParseCommand(commands, botUsername, u)
        case Some(action) => CommandRoute(id, action)
        case None => if id in pending then PendingRoute(id, pending[id]) else InvalidRoute
  }

  /** A command wins over a pending continuation of the same sender, whatever that continuation is. */
  lemma CommandPreemptsPending<A>(commands: map<string, Command<A>>, pending: map<int, A>, botUsername: string, u: Update, a: A)
    requires Sender(u).Some? && ParseCommand(commands, botUsername, u).Some?
    ensures Classify(commands, pending, botUsername, u) == Classify(commands, pending[Sender(u).value := a], botUsername, u)
    ensures Classify(commands, pending, botUsername, u) == Classify(commands, pending - {Sender(u).value}, botUsername, u)
  {
  }

  /** The router's own view of the commands: one entry per registered name, in registration order. */
  class BotUpdateHandler<A> {
    const botUsername: string
    var commands: map<string, Command<A>>
    /** The keys of `commands` in the order they were added, the order a dictionary enumerates them in. */
    var names: seq<string>
    var pending: map<int, A>

    ghost predicate Valid()
      reads this
    {
      && (forall k :: k in commands ==> Lower(k) == k)
      && (forall i :: 0 <= i < |names| ==> names[i] in commands)
      && (forall k :: k in commands ==> k in names)
      && (forall i, j :: 0 <= i < j < |names| ==> names[i] != names[j])
    }

    constructor(botUsername: string)
      ensures Valid() && this.botUsername == botUsername
      ensures commands == map[] && names == [] && pending == map[]
    {
      this.botUsername := botUsername;
      commands, names, pending := map[], [], map[];
    }

    /**
     * Registers `command` under its lower-cased name. A name already present
     * is rejected by the explicit check when it is given in lower case, and
     * by the dictionary otherwise; either way nothing changes.
     */
    method DefineCommand(command: string, description: string, action: A) returns (o: Outcome<Exception>)
      requires Valid()
      modifies this
      ensures Valid() && pending == old(pending)
      ensures o.Pass? <==> Lower(command) !in old(commands)
      ensures o.Pass? ==> commands == old(commands)[Lower(command) := Command(description, action)]
                          && names == old(names) + [Lower(command)]
      ensures o.Fail? ==> commands == old(commands) && names == old(names)
      ensures o.Fail? ==> o.error == if command in old(commands) then BotUpdateHandlerException else ArgumentException
    {
      if command in commands {
        return Fail(BotUpdateHandlerException);
      }
      var key := Lower(command);
      if key in commands {
        return Fail(ArgumentException);
      }
      LowerIdempotent(command);
      commands := commands[key := Command(description, action)];
      names := names + [key];
      o := Pass;
    }

    /** Sets the pending continuation of `fromId`, replacing any earlier one. */
    method AddPendingRequest(fromId: int, action: A)
      modifies this
      ensures pending == old(pending)[fromId := action]
      ensures commands == old(commands) && names == old(names)
    {
      pending := pending - {fromId};
      pending := pending[fromId := action];
    }

    /** Clears the pending continuation of `fromId`, if there is one. */
    method RemovePendingRequest(fromId: int)
      modifies this
      ensures pending == old(pending) - {fromId}
      ensures commands == old(commands) && names == old(names)
    {
      pending := pending - {fromId};
    }

    /** The command list: every registered name once, with its description, in registration order. */
    method Commands() returns (r: seq<BotCommand>)
      requires Valid()
      ensures |r| == |names| == |commands|
      ensures forall i :: 0 <= i < |r| ==> r[i].command in commands && r[i].description == commands[r[i].command].description
      ensures forall k :: k in commands ==> exists i :: 0 <= i < |r| && r[i].command == k
      ensures forall i, j :: 0 <= i < j < |r| ==> r[i].command != r[j].command
      ensures forall i :: 0 <= i < |r| ==> r[i].command == names[i]
    {
      DistinctNamesCount();
      r := [];
      var i := 0;
      while i < |names|
        invariant 0 <= i <= |names| && |r| == i
        invariant forall k :: 0 <= k < i ==> r[k] == BotCommand(names[k], commands[names[k]].description)
      {
        var key := names[i];
        r := r + [BotCommand(key, commands[key].description)];
        i := i + 1;
      }
    }

    /** Distinct names covering exactly the keys: as many names as commands. */
    lemma DistinctNamesCount()
      requires Valid()
      ensures |names| == |commands|
    {
      var keys := set i | 0 <= i < |names| :: names[i];
      assert keys == commands.Keys;
      DistinctCard(names);
    }

    /**
     * The router's share of handling an update: it classifies the update and,
     * for a command, first clears the sender's pending continuation. It
     * never touches the pending table otherwise; invoking the handler is the
     * caller's part.
     */
    method Dispatch(u: Update) returns (r: Route<A>)
      modifies this
      ensures r == Classify(old(commands), old(pending), botUsername, u)
      ensures pending == if r.CommandRoute? then old(pending) - {r.sender} else old(pending)
      ensures commands == old(commands) && names == old(names)
    {
      r := Classify(commands, pending, botUsername, u);
      if r.CommandRoute? {
        RemovePendingRequest(r.sender);
      }
    }
  }

  /** A sequence without repetitions has as many elements as its set of elements. */
  lemma {:induction false} DistinctCard<T>(s: seq<T>)
    requires forall i, j :: 0 <= i < j < |s| ==> s[i] != s[j]
    ensures |set i | 0 <= i < |s| :: s[i]| == |s|
  {
    if s != [] {
      var last := |s| - 1;
      DistinctCard(s[..last]);
      var front := set i | 0 <= i < last :: s[..last][i];
      var all := set i | 0 <= i < |s| :: s[i];
      assert all == front + {s[last]};
      assert s[last] !in front;
    }
  }
}
