/** The SDK's pagination bag: a stack of page states that travels between calls as a token. */
module Bag {

  import opened Wrappers

  datatype PageState = PageState(resourceTypeId: string, token: string)

  /**
   What a token encodes. A bag without a current state serialises to the empty token; a text with states and no
   current one is never written, but it is read.
   */
  datatype Token = NoToken | Marshalled(states: seq<PageState>, current: PageState) | Stale(states: seq<PageState>)

  /** The token after pushing a state. */
  function Pushed(t: Token, s: PageState): Token {
    match t
    case NoToken => Marshalled([], s)
    case Marshalled(states, current) => Marshalled(states + [current], s)
    case Stale(states) => Marshalled(states, s)
  }

  /** The token after popping the current state. */
  function Popped(t: Token): Token {
    match t
    case NoToken => NoToken
    case Marshalled(states, current) =>
      if states == [] then NoToken else Marshalled(states[..|states| - 1], states[|states| - 1])
    case Stale(states) => t
  }

  /** The token after the current page: the next page in its place, or one state fewer. */
  function Advanced(t: Token, pageToken: string): Token {
    if !t.Marshalled? || pageToken == "" then Popped(t) else t.(current := t.current.(token := pageToken))
  }

  /** What writing a bag with this content gives: states beneath no current one are lost. */
  function Written(t: Token): Token {
    if t.Marshalled? then t else NoToken
  }

  /** Popping undoes pushing on every bag but one with states and no current one. */
  lemma PopUndoesPush(t: Token, s: PageState)
    ensures Popped(Pushed(t, s)) == t <==> !t.Stale?
  {
  }

  /** On a pushed state the next page token replaces the state's own, and an empty one uncovers what is beneath. */
  lemma NextOnPushed(t: Token, s: PageState, pageToken: string)
    requires !t.Stale?
    ensures Advanced(Pushed(t, s), pageToken)
      == if pageToken == "" then t else Pushed(t, PageState(s.resourceTypeId, pageToken))
  {
  }

  /** A bag is read back as it was written, unless it has states without a current one. */
  lemma WrittenIsRead(t: Token)
    ensures Written(t) == t <==> !t.Stale?
    ensures t.Stale? ==> Written(t) == NoToken
  {
  }

  class PaginationBag {
    var states: seq<PageState>
    var current: Option<PageState>

    ghost function Contents(): Token
      reads this
    {
      if current.Some? then Marshalled(states, current.value)
      else if states == [] then NoToken
      else Stale(states)
    }

    constructor ()
      ensures Contents() == NoToken
    {
      states, current := [], None;
    }

    /** Reads a token; None stands for a text that encodes none, which is an error and leaves the bag alone. */
    method Unmarshal(input: Option<Token>) returns (ok: bool)
      modifies this
      ensures ok == input.Some?
      ensures Contents() ==
        if !ok then old(Contents()) else if input.value == Stale([]) then NoToken else input.value
    {
      if input.None? {
        return false;
      }
      match input.value {
        case NoToken => states, current := [], None;
        case Marshalled(s, c) => states, current := s, Some(c);
        case Stale(s) => states, current := s, None;
      }
      return true;
    }

    method Marshal() returns (token: Token)
      ensures token == Written(Contents())
    {
      if current.None? {
        return NoToken;
      }
      return Marshalled(states, current.value);
    }

    method ResourceTypeId() returns (id: string)
      ensures id == if !Contents().Marshalled? then "" else Contents().current.resourceTypeId
    {
      id := if current.None? then "" else current.value.resourceTypeId;
    }

    method PageToken() returns (t: string)
      ensures t == if !Contents().Marshalled? then "" else Contents().current.token
    {
      t := if current.None? then "" else current.value.token;
    }

    method Push(s: PageState)
      modifies this
      ensures Contents() == Pushed(old(Contents()), s)
    {
      if current.Some? {
        states := states + [current.value];
      }
      current := Some(s);
    }

    method Pop() returns (top: Option<PageState>)
      modifies this
      ensures Contents() == Popped(old(Contents()))
      ensures top == old(current)
    {
      top := current;
      if current.Some? {
        if |states| > 0 {
          current := Some(states[|states| - 1]);
          states := states[..|states| - 1];
        } else {
          current := None;
        }
      }
    }

    /** Replaces the token of the current state, or drops the state when there is no next page. */
    method Next(pageToken: string) returns (ok: bool)
      modifies this
      ensures ok == old(current.Some?)
      ensures Contents() == if ok then Advanced(old(Contents()), pageToken) else old(Contents())
    {
      var st := Pop();
      if st.None? {
        return false;
      }
      if pageToken != "" {
        Push(st.value.(token := pageToken));
      }
      return true;
    }
  }
}
