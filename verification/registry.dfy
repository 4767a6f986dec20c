/** The bot registry: one bot per token, for routing webhook calls to the right bot. */
module Registry {
  import opened Base

  /** A bot, identified by its token. */
  class Bot {
    const token: string

    constructor(token: string)
      ensures this.token == token
    {
      this.token := token;
    }
  }

  class BotFactory {
    var bots: map<string, Bot>

    /** Every bot is stored under its own token, so at most one bot per token. */
    ghost predicate Valid()
      reads this
    {
      forall t :: t in bots ==> bots[t].token == t
    }

    constructor()
      ensures Valid() && bots == map[]
    {
      bots := map[];
    }

    /** The bot registered under `botToken`, or null when there is none. */
    function Get(botToken: string): (r: Bot?)
      requires Valid()
      reads this
      ensures r == null <==> botToken !in bots
      ensures r != null ==> r == bots[botToken] && r.token == botToken
    {
      if botToken in bots then bots[botToken] else null
    }

    /** Adds `bot` under its token; a token already present raises BotFactoryException and changes nothing. */
    method Register(bot: Bot) returns (o: Outcome<Exception>)
      requires Valid()
      modifies this
      ensures Valid()
      ensures o.Pass? <==> bot.token !in old(bots)
      ensures o.Pass? ==> bots == old(bots)[bot.token := bot] && Get(bot.token) == bot
      ensures o.Fail? ==> o.error == BotFactoryException && bots == old(bots)
    {
      if bot.token in bots {
        return Fail(BotFactoryException);
      }
      bots := bots[bot.token := bot];
      o := Pass;
    }

    /** Removes whatever bot is stored under `bot`'s token; reports whether there was one. */
    method Unregister(bot: Bot) returns (removed: bool)
      requires Valid()
      modifies this
      ensures Valid()
      ensures removed <==> bot.token in old(bots)
      ensures bots == old(bots) - {bot.token}
    {
      removed := bot.token in bots;
      bots := bots - {bot.token};
    }
  }
}
