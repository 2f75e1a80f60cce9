/** The unit table of the game: three kinds of unit, each beating exactly one
    other kind and beaten by exactly the remaining one. */
module Units {

  /** The keys of the `units` table. */
  datatype Unit = Soldier | Horseman | Canon

  /** The label the game uses for a unit kind (the key in `units`). */
  function Name(u: Unit): string
  {
    match u
    case Soldier => "soldier"
    case Horseman => "horseman"
    case Canon => "canon"
  }

  /** `units[u].can_beat`: the kind that `u` defeats. No kind defeats itself. */
  function CanBeat(u: Unit): (r: Unit)
    ensures r != u
  {
    match u
    case Soldier => Horseman
    case Horseman => Canon
    case Canon => Soldier
  }

  /** `units[u].can_beat_by`: the kind that defeats `u`. It is the third kind,
      distinct from `u` and from the kind `u` defeats, and it is the one kind
      whose `can_beat` entry is `u`. */
  function CanBeatBy(u: Unit): (r: Unit)
    ensures r != u && r != CanBeat(u)
    ensures CanBeat(r) == u
  {
    match u
    case Soldier => Canon
    case Horseman => Soldier
    case Canon => Horseman
  }

  /** The two columns of the table describe the same relation:
      `y` is listed as beating `x` exactly when `x` is listed as beaten by `y`. */
  lemma BeatenByIsConverse(x: Unit, y: Unit)
    ensures CanBeatBy(x) == y <==> CanBeat(y) == x
  {
    if CanBeat(y) == x {
      match y
      case Soldier =>
      case Horseman =>
      case Canon =>
    }
  }

  /** The relation is the cycle soldier -> horseman -> canon -> soldier:
      following `can_beat` three times comes back to the start, and twice
      reaches the kind that beats the start. */
  lemma BeatsIsThreeCycle(x: Unit)
    ensures CanBeat(Soldier) == Horseman && CanBeat(Horseman) == Canon && CanBeat(Canon) == Soldier
    ensures CanBeat(CanBeat(x)) == CanBeatBy(x)
    ensures CanBeat(CanBeat(CanBeat(x))) == x
  {
  }

  /** Which of the three branches of `attack` applies to a pair of kinds. */
  datatype Outcome =
    | Tie       // same kind: both units are destroyed
    | Wins      // the attacker's `can_beat` is the defender: the defender is destroyed
    | Rejected  // the attacker's `can_beat_by` is the defender: nothing happens

  /** Classifies an attack. Every pair of kinds falls into exactly one of the
      three cases that `attack` tests one after the other. */
  function Resolve(attacker: Unit, defender: Unit): (o: Outcome)
    ensures o == Tie <==> attacker == defender
    ensures o == Wins <==> CanBeat(attacker) == defender
    ensures o == Rejected <==> CanBeatBy(attacker) == defender
  {
    if attacker == defender then Tie
    else if CanBeat(attacker) == defender then Wins
    else Rejected
  }

  /** The highlighting test of the board click handler: `opponent` is marked as
      a target of `unit` when `unit` can beat it or it is the same kind. These
      are exactly the pairs that `attack` does not reject. */
  predicate IsTarget(unit: Unit, opponent: Unit)
    ensures IsTarget(unit, opponent) <==> Resolve(unit, opponent) != Rejected
    ensures IsTarget(unit, opponent) <==> CanBeatBy(unit) != opponent
  {
    CanBeat(unit) == opponent || unit == opponent
  }
}
