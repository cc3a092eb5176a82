/** The ambient game resources: whose turn it is, and who won. */
module Resources {
  import opened Wrappers
  import opened Symbols
  import opened Players

  /** The symbol whose holder may pick a cell this turn. */
  class CurrentTurn {
    var symbol: Symbol

    /** The default resource: the first mover's symbol. */
    constructor Default()
      ensures symbol == DEFAULT_SYMBOL
    {
      symbol := DEFAULT_SYMBOL;
    }

    constructor (symbol: Symbol)
      ensures this.symbol == symbol
    {
      this.symbol := symbol;
    }

    /** Hands the turn to the other symbol. */
    method Next()
      modifies this
      ensures symbol == old(symbol).Next()
    {
      symbol := symbol.Next();
    }

    /** Gives the turn back to Cross, whatever it was. */
    method Reset()
      modifies this
      ensures symbol == Cross
    {
      symbol := Cross;
    }
  }

  /** The identity of the winning player; None while there is none (or none held the symbol). */
  class Winner {
    var clientId: Option<ClientId>

    /** The default resource: no winner. */
    constructor Default()
      ensures clientId == None
    {
      clientId := None;
    }

    constructor (clientId: Option<ClientId>)
      ensures this.clientId == clientId
    {
      this.clientId := clientId;
    }

    method Clear()
      modifies this
      ensures clientId == None
    {
      clientId := None;
    }
  }
}
