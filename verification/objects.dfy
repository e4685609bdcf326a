// The reference-counted records of the server: clients and the invitations between them.
module Objects {
  import opened Games
  import opened ArrayLists
  import opened Players

  datatype InvState = Open | Accepted | Closed

  class Client {
    const fd: int
    const invitations: ArrayList<Invitation?>
    var refs: nat
    var player: Player?

    constructor (fd: int)
      ensures refs == 1 && player == null && this.fd == fd
      ensures fresh(invitations) && invitations.Valid() && fresh(invitations.data)
      ensures invitations.Contents() == [] && invitations.nil == null
    {
      this.fd := fd;
      refs := 1;
      player := null;
      invitations := new ArrayList<Invitation?>(null);
    }
  }

  class Invitation {
    const source: Client
    const target: Client
    const sourceRole: nat
    const targetRole: nat
    var refs: nat
    var game: Game?
    var state: InvState

    ghost predicate Valid()
      reads this, game
    {
      && (state == Accepted ==> game != null)
      && (game != null ==> game.Valid())
    }

    constructor (source: Client, target: Client, sourceRole: nat, targetRole: nat)
      ensures this.source == source && this.target == target
      ensures this.sourceRole == sourceRole && this.targetRole == targetRole
      ensures refs == 1 && game == null && state == Open && Valid()
    {
      this.source := source;
      this.target := target;
      this.sourceRole := sourceRole;
      this.targetRole := targetRole;
      refs := 1;
      game := null;
      state := Open;
    }

    method Accept() returns (res: int)
      requires Valid()
      modifies this`state, this`game
      ensures Valid()
      ensures old(state) == Open ==>
        && res == 0 && state == Accepted && game != null
        && fresh(game) && fresh(game.board) && game.State() == INITIAL && game.refs == 1
      ensures old(state) != Open ==> res == -1 && state == old(state) && game == old(game)
    {
      res := -1;
      if state == Open {
        state := Accepted;
        game := new Game();
        res := 0;
      }
    }

    // Closes the invitation; a game in progress is resigned by the given role, and without a
    // role it cannot be closed.
    method Close(role: nat) returns (res: int)
      requires Valid()
      modifies this`state, game
      ensures Valid() && game == old(game)
      ensures
        if old(state) == Open || (old(state) == Accepted && role != NULL_ROLE)
        then res == 0 && state == Closed
        else res == -1 && state == old(state)
      ensures game != null ==> game.refs == old(game.refs)
      ensures game != null ==>
        var resigned := Resigned(old(game.State()), role);
        if old(state) == Accepted && resigned.Some? then game.State() == resigned.value
        else game.State() == old(game.State())
    {
      res := -1;
      if state == Open {
        res := 0;
      } else if state == Accepted && role != NULL_ROLE {
        var _ := game.Resign(role);
        res := 0;
      }
      if res == 0 {
        state := Closed;
      }
    }
  }
}
