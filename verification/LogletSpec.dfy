/** What the virtual log relies on in a loglet: a sequence of issued entries that can be sealed.
    Position p of a loglet is issued[p - 1]. The stamp names the append call that was given the
    position, so two appends of equal entries stay distinguishable. */
module LogletSpec {
  import opened RelosCore

  datatype Stamp = Stamp(op: nat, entry: Entry)

  datatype Loglet = Loglet(issued: seq<Stamp>, sealed: bool)

  const EMPTY: Loglet := Loglet([], false)

  function Tail(l: Loglet): LogPos {
    |l.issued| + 1
  }

  function Issue(l: Loglet, st: Stamp): Loglet {
    l.(issued := l.issued + [st])
  }

  function Seal(l: Loglet): Loglet {
    l.(sealed := true)
  }

  ghost predicate Step(l: Loglet, l': Loglet) {
    || l' == l
    || l' == Seal(l)
    || (!l.sealed && |l'.issued| == |l.issued| + 1 && l' == Issue(l, l'.issued[|l.issued|]))
  }

  predicate Holds(l: Loglet, p: LogPos, st: Stamp) {
    1 <= p < Tail(l) && l.issued[p - 1] == st
  }
}
