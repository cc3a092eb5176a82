/** The two markers a player plays as, and the pairing of a marker with a board cell. */
module Symbols {

  /** A player's marker or the content of a filled cell; Cross moves first. */
  datatype Symbol = Cross | Nought {

    /** The symbol whose holder moves after the holder of this one. */
    function Next(): Symbol
    {
      match this
      case Cross => Nought
      case Nought => Cross
    }
  }

  /** The value a symbol takes when nothing else is said: the first mover. */
  const DEFAULT_SYMBOL: Symbol := Cross

  /** The lower-case name of a symbol, as shown in the turn and winner texts. */
  function Display(s: Symbol): (text: string)
  {
    match s
    case Cross => "cross"
    case Nought => "nought"
  }

  /** A filled cell: the symbol written and the index of the cell it occupies. */
  datatype SymbolBundle = SymbolBundle(symbol: Symbol, cellIndex: nat)

  lemma NextIsFlip(s: Symbol)
    ensures s.Next() != s
    ensures s.Next().Next() == s
  {
  }

  lemma ExactlyTwoSymbols(s: Symbol)
    ensures s == Cross || s == Nought
    ensures s.Next() == (if s == Cross then Nought else Cross)
    ensures DEFAULT_SYMBOL == Cross
  {
  }

  lemma DisplayNames(s: Symbol)
    ensures Display(Cross) == "cross" && Display(Nought) == "nought"
    ensures Display(s) == Display(s.Next()) ==> false
  {
  }

  /** A bundle made from a symbol and an index carries both unchanged. */
  lemma BundleRoundTrip(s: Symbol, index: nat)
    ensures SymbolBundle(s, index).symbol == s && SymbolBundle(s, index).cellIndex == index
  {
  }
}
