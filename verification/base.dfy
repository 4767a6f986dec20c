/** Failure-carrying wrappers and the exceptions the bot can raise. */
module Base {

  datatype Option<+T> = None | Some(value: T)

  datatype Result<+T, +E> = Success(value: T) | Failure(error: E)

  /** A step that either completed or raised an exception. */
  datatype Outcome<+E> = Pass | Fail(error: E)

  /** The .NET exceptions that the modelled code can raise. */
  datatype Exception =
    | BotUpdateHandlerException   // explicit duplicate-command check of DefineCommand
    | ArgumentException           // Dictionary.Add on a key that is already present
    | KeyNotFoundException(key: string)  // ImmutableDictionary indexer on a missing key
    | BotFactoryException         // Register with a token that is already present
    | InvalidOperationException   // Enumerable.Last on an empty sequence

  /** A non-empty sequence is its front followed by its last element. */
  lemma FrontThenLast<T>(s: seq<T>)
    requires s != []
    ensures s[..|s| - 1] + [s[|s| - 1]] == s
  {
  }

  /** Removing a key and then setting it is setting it. */
  lemma RemoveThenSet<K, V>(m: map<K, V>, k: K, v: V)
    ensures (m - {k})[k := v] == m[k := v]
  {
  }

  /** Setting a key and then removing it is removing it. */
  lemma SetThenRemove<K, V>(m: map<K, V>, k: K, v: V)
    ensures m[k := v] - {k} == m - {k}
  {
  }
}
