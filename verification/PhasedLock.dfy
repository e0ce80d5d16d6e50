/** What every phase locker of the crate is meant to be: a read/write lock that carries a phase, where
    only the holder of the write lock changes the phase, and does so when it releases or converts. */
module PhasedLock {
  import opened Phases

  datatype Lock = Lock(phase: Phase, readers: set<nat>, writers: set<nat>)

  datatype Action =
    | Stutter
    | AcquireRead(c: nat)
    | AcquireWrite(c: nat)
    | ReleaseRead(c: nat)
    | ReleaseWrite(c: nat, to: Phase)
    | Downgrade(c: nat, to: Phase)

  predicate Allowed(l: Lock, a: Action) {
    match a
    case Stutter => true
    case AcquireRead(c) => l.writers == {} && c !in l.readers
    case AcquireWrite(_) => l.writers == {} && l.readers == {}
    case ReleaseRead(c) => c in l.readers
    case ReleaseWrite(c, _) => c in l.writers
    case Downgrade(c, _) => c in l.writers
  }

  function Apply(l: Lock, a: Action): Lock {
    match a
    case Stutter => l
    case AcquireRead(c) => l.(readers := l.readers + {c})
    case AcquireWrite(c) => l.(writers := l.writers + {c})
    case ReleaseRead(c) => l.(readers := l.readers - {c})
    case ReleaseWrite(c, to) => l.(phase := to, writers := l.writers - {c})
    case Downgrade(c, to) => l.(phase := to, writers := l.writers - {c}, readers := l.readers + {c})
  }

  /** At most one writer, and then no reader. */
  predicate Exclusion(l: Lock) {
    && (forall c, d :: c in l.writers && d in l.writers ==> c == d)
    && (l.writers != {} ==> l.readers == {})
  }

  /** The abstract lock keeps its exclusion, and its phase is fixed as long as somebody reads. */
  lemma ActionKeepsExclusion(l: Lock, a: Action)
    requires Exclusion(l) && Allowed(l, a)
    ensures Exclusion(Apply(l, a))
    ensures l.readers != {} ==> Apply(l, a).phase == l.phase
    ensures Apply(l, a).phase != l.phase ==> (a.ReleaseWrite? || a.Downgrade?) && l.writers == {a.c}
  {
    if a.ReleaseWrite? || a.Downgrade? {
      assert l.writers == {a.c};
    }
  }
}
