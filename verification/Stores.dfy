/**
  What a run store keeps of a run, and how it takes an append.
  */
module Stores {
  import opened Protocol

  datatype Stored = Stored(spec: RunSpec, log: Log)

  type Store = map<RunId, Stored>

  datatype Append = Appended | Terminal | Moved | Missing

  /** `append_events`, and with `seen` also refused unless the log is `seen` events long. */
  function AppendTo(s: Store, id: RunId, seen: Option<nat>, batch: Log): (Store, Append) {
    if id !in s then (s, Missing)
    else if Ended(s[id].log) then (s, Terminal)
    else if seen.Some? && seen.value != |s[id].log| then (s, Moved)
    else (s[id := s[id].(log := s[id].log + batch)], Appended)
  }

  /** A run's log; empty for a run not stored. */
  function LogOf(s: Store, id: RunId): Log {
    if id in s then s[id].log else []
  }

  /** An append is taken exactly onto a stored open log, of the length seen if one is; anything else changes nothing. */
  lemma AppendOutcome(s: Store, id: RunId, seen: Option<nat>, batch: Log)
    ensures var (s', answer) := AppendTo(s, id, seen, batch);
            && (answer.Appended? <==> id in s && !Ended(s[id].log) && (seen.Some? ==> seen.value == |s[id].log|))
            && (answer.Missing? <==> id !in s) && (answer.Terminal? <==> id in s && Ended(s[id].log))
            && (if answer.Appended?
                then s'.Keys == s.Keys && s'[id].log == s[id].log + batch && s'[id].spec == s[id].spec
                     && forall other <- s :: other != id ==> s'[other] == s[other]
                else s' == s)
  {
  }
}
