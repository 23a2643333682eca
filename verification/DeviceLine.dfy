/** One device in front of the server: the session bound to its serial, and the session its requests meet. */
module DeviceLine {
  import opened CwmpSpec
  import opened Tasks
  import opened GoStrings

  /** Where the session id of the device leads: to the bound session, to none because that session has ended and left
      the session map, or to one that was made since and is bound to no serial. */
  datatype Place = Bound | Gone | Stray(sess: Sess)

  datatype Line = Line(bound: Sess, place: Place)

  /** An empty POST with nothing to do ends the session and takes it out of the session map. */
  predicate Closes(s: Sess, r: Request) {
    r.Empty? && s.summon != 1 && s.summon != 3 && s.wan.None? && s.current.None? && s.pending == []
  }

  /** The session that a request meets, made on the spot if there is none. */
  function Met(l: Line): Sess {
    match l.place
    case Bound => l.bound
    case Gone => FRESH_SESS
    case Stray(s) => s
  }

  /** The line once a request has left the session it met as s. */
  function Asked(l: Line, r: Request, s: Sess): Line {
    if l.place.Bound? then Line(s, if Closes(l.bound, r) then Gone else Bound)
    else Line(l.bound, if Closes(Met(l), r) then Gone else Stray(s))
  }

  /** The session that handles an Inform, once it has adopted. A rotated Inform comes under an id that the server has
      not seen. */
  function Meeting(l: Line, rotated: bool): Sess {
    if rotated || l.place.Gone? then Adopted(l.bound)
    else if l.place.Bound? then l.bound
    else AdoptedBy(l.bound, l.place.sess)
  }

  /** What can happen to a device: a request, an Inform, a full summon asked for through the API. */
  datatype Happening = Post(request: Request) | Inform(informed: Informed, rotated: bool) | Trigger

  /** Requests and Informs have an outcome. */
  function Answer(l: Line, h: Happening, w: World): Option<Outcome> {
    match h
    case Post(r) => Some(Serve(Met(l), r, w))
    case Inform(inf, rotated) => Some(OnInform(Meeting(l, rotated), inf, w))
    case Trigger => None
  }

  function Moved(l: Line, h: Happening, w: World): Line {
    match h
    case Post(r) => Asked(l, r, Serve(Met(l), r, w).sess)
    case Inform(inf, rotated) => Line(OnInform(Meeting(l, rotated), inf, w).sess, Bound)
    case Trigger => l.(bound := Triggered(l.bound))
  }

  const NEW_LINE := Line(FRESH_SESS, Gone)

  /** A session that has left the map has no work that a later Inform could take over. */
  predicate Settled(l: Line) {
    l.place.Bound? || (l.bound.current.None? && l.bound.wan.None? && l.bound.pending == [])
  }

  lemma StaysSettled(l: Line, h: Happening, w: World)
    requires Settled(l)
    ensures Settled(Moved(l, h, w))
  {
  }
}
