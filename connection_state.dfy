/**
 * The life cycle of a connection (WsConnectionState): six states with strictly
 * increasing integer ranks. Both the client side (`iStatus`) and the proxy side
 * (`iProxyStatus`) store a rank as a plain `int`, starting from the sentinel -1.
 */
module ConnectionState {
  import opened Wrappers

  datatype State = Connected | HandshakeComplete | HeaderRead | StreamOpened | StreamClosed | Disconnected

  /** The integer constant the source uses for each state */
  function Rank(s: State): (r: int)
    ensures 0 <= r <= 500 && r % 100 == 0
  {
    match s
    case Connected => 0
    case HandshakeComplete => 100
    case HeaderRead => 200
    case StreamOpened => 300
    case StreamClosed => 400
    case Disconnected => 500
  }

  /** The value a status field holds before its owner's constructor has run */
  const UNSET: int := -1

  /** The state a rank stands for, as a `switch` on the rank dispatches; None reaches `default` */
  function StateOf(rank: int): (s: Option<State>)
    ensures s.Some? ==> Rank(s.value) == rank
    ensures s.None? ==> forall t :: Rank(t) != rank
  {
    if rank == 0 then Some(Connected)
    else if rank == 100 then Some(HandshakeComplete)
    else if rank == 200 then Some(HeaderRead)
    else if rank == 300 then Some(StreamOpened)
    else if rank == 400 then Some(StreamClosed)
    else if rank == 500 then Some(Disconnected)
    else None
  }

  /** Every state is recovered from its rank, so switch dispatch on ranks is unambiguous. */
  lemma StateOfRank(s: State)
    ensures StateOf(Rank(s)) == Some(s)
  {
  }

  /** The ranks are pairwise distinct. */
  lemma RankInjective(s: State, t: State)
    requires Rank(s) == Rank(t)
    ensures s == t
  {
    StateOfRank(s);
    StateOfRank(t);
  }

  /** The six states are strictly ordered by rank, in life-cycle order. */
  lemma RanksIncrease()
    ensures Rank(Connected) < Rank(HandshakeComplete) < Rank(HeaderRead)
            < Rank(StreamOpened) < Rank(StreamClosed) < Rank(Disconnected)
  {
  }

  /**
   * DISCONNECTED is the largest rank, so among the defined states `>= DISCONNECTED`
   * holds of DISCONNECTED alone and `< DISCONNECTED` of every other state.
   */
  lemma DisconnectedIsMaximum(s: State)
    ensures Rank(s) <= Rank(Disconnected)
    ensures Rank(s) >= Rank(Disconnected) <==> s == Disconnected
  {
  }

  /** The sentinel lies below every rank and is none of them, so it always reaches `default`. */
  lemma UnsetIsNoState(s: State)
    ensures UNSET < Rank(s)
    ensures StateOf(UNSET) == None
  {
  }
}
