/** Several processes that load or create the same identity file at once: any interleaving of
    looking, writing a private temporary file, linking it without overwriting, and reading
    (crates/core/src/identity.rs). */
module FirstUse {
  import opened Common

  /** Where one `load_or_create_at` is; `random` is the token it generates if it needs one. */
  datatype Process =
    | Starting(random: Token)
    | Writing(random: Token, temporary: seq<byte>)
    | Reading
    | Finished(token: Token)
    | Failed
    | Crashed

  datatype Shared = Shared(file: Option<seq<byte>>, processes: seq<Process>)

  datatype Move = Advance(at: nat) | Kill(at: nat)

  predicate Possible(s: Shared, m: Move) {
    m.at < |s.processes|
  }

  /** The next atomic step of one process. */
  function Advanced(file: Option<seq<byte>>, p: Process): (Option<seq<byte>>, Process) {
    match p
    case Starting(random) => (file, if file.Some? then Reading else Writing(random, []))
    case Writing(random, temporary) =>
      if |temporary| < 32 then (file, Writing(random, random[..|temporary| + 1]))
      else if file.None? then (Some(temporary), Finished(random))
      else (file, Reading)
    case Reading =>
      (file, if file.Some? && |file.value| == 32 then Finished(file.value) else Failed)
    case _ => (file, p)
  }

  function Moved(s: Shared, m: Move): Shared
    requires Possible(s, m)
  {
    match m
    case Advance(at) =>
      var (file, p) := Advanced(s.file, s.processes[at]);
      Shared(file, s.processes[at := p])
    case Kill(at) => s.(processes := s.processes[at := Crashed])
  }

  ghost predicate ProcessOk(file: Option<seq<byte>>, p: Process) {
    match p
    case Writing(random, temporary) => temporary <= random
    case Reading => file.Some?
    case Finished(token) => file == Some(token)
    case Failed => false
    case _ => true
  }

  /** The file is absent or whole, and everyone who finished has exactly its content. */
  ghost predicate Agreed(s: Shared) {
    && (s.file.Some? ==> |s.file.value| == 32)
    && forall i :: 0 <= i < |s.processes| ==> ProcessOk(s.file, s.processes[i])
  }

  lemma MoveAgrees(s: Shared, m: Move)
    requires Agreed(s) && Possible(s, m)
    ensures Agreed(Moved(s, m))
    ensures s.file.Some? ==> Moved(s, m).file == s.file
  {
    var p := s.processes[m.at];
    if p.Writing? && |p.temporary| == 32 {
      assert p.temporary == p.random;
    }
  }

  ghost predicate AllPossible(s: Shared, moves: seq<Move>)
    decreases |moves|
  {
    moves != [] ==> Possible(s, moves[0]) && AllPossible(Moved(s, moves[0]), moves[1..])
  }

  ghost function MovedAll(s: Shared, moves: seq<Move>): Shared
    requires AllPossible(s, moves)
    decreases |moves|
  {
    if moves == [] then s else MovedAll(Moved(s, moves[0]), moves[1..])
  }

  /** Whatever the interleaving and whoever crashes: a file once visible never changes, no partly
      written one is ever visible, no call fails, and all calls return the same token. */
  lemma {:induction false} EveryoneAgrees(s: Shared, moves: seq<Move>)
    requires Agreed(s) && AllPossible(s, moves)
    ensures var e := MovedAll(s, moves);
            && Agreed(e)
            && (s.file.Some? ==> e.file == s.file)
            && (forall i :: 0 <= i < |e.processes| && e.processes[i].Finished? ==> e.file == Some(e.processes[i].token))
            && (forall i :: 0 <= i < |e.processes| ==> !e.processes[i].Failed?)
    decreases |moves|
  {
    if moves != [] {
      MoveAgrees(s, moves[0]);
      EveryoneAgrees(Moved(s, moves[0]), moves[1..]);
    }
  }
}
