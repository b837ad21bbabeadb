/** Candidate priorities: the 32-bit computation of `calculatePriority` and the recommended
    formula of sections 4.1.2.1 and 4.1.2.2 of RFC 5245. */
module Priority {

  const TWO32: nat := 0x1_0000_0000

  /** Unsigned 32-bit arithmetic. */
  function Mul32(a: nat, b: nat): nat { (a * b) % TWO32 }
  function Add32(a: nat, b: nat): nat { (a + b) % TWO32 }

  /** The formula over unbounded integers. */
  function Formula(typePref: nat, localPref: nat, component: nat): int {
    0x100_0000 * typePref + 0x100 * localPref + (256 - component)
  }

  predicate InRange(typePref: nat, localPref: nat, component: nat) {
    typePref <= 126 && localPref <= 0xFFFF && 1 <= component <= 256
  }

  datatype CandidateType = Host | ServerReflexive | PeerReflexive | Relay | Other

  function TypePreference(t: CandidateType): nat {
    match t
    case Host => 126
    case PeerReflexive => 110
    case ServerReflexive => 100
    case Relay => 0
    case Other => 0
  }

  function LocalPreference(isPrivate: bool): nat {
    if isPrivate then 100 else 200
  }

  /** `calculatePriority`, with every operation modulo 2^32. */
  function Calculate(t: CandidateType, isPrivate: bool): nat {
    Add32(Add32(Mul32(0x100_0000, TypePreference(t)), Mul32(0x100, LocalPreference(isPrivate))), 256 - 1)
  }

  /** The code never wraps: it computes the formula for component 1 with the preferences of the standard
      and its own for private addresses, and the value is a legal priority. */
  lemma CalculateNeverWraps(t: CandidateType, isPrivate: bool)
    ensures var typePref := if t.Host? then 126 else if t.PeerReflexive? then 110 else if t.ServerReflexive? then 100 else 0;
            Calculate(t, isPrivate) == typePref * 16777216 + (if isPrivate then 100 else 200) * 256 + 255
    ensures Calculate(t, isPrivate) == Formula(TypePreference(t), LocalPreference(isPrivate), 1)
    ensures 1 <= Calculate(t, isPrivate) <= 0x7FFF_FFFF
  {
  }

  /** In range the formula fits the legal priorities 1 to 2^31 - 1, with the single exception
      of the lowest inputs, which give 0. */
  lemma FormulaRange(t: nat, l: nat, c: nat)
    requires InRange(t, l, c)
    ensures 0 <= Formula(t, l, c) <= 0x7FFF_FFFF
    ensures Formula(t, l, c) == 0 <==> t == 0 && l == 0 && c == 256
  {
  }

  /** The three inputs can be recovered from the priority. */
  lemma InputsRecoverable(t: nat, l: nat, c: nat)
    requires InRange(t, l, c)
    ensures t == Formula(t, l, c) / 0x100_0000
    ensures l == (Formula(t, l, c) / 0x100) % 0x1_0000
    ensures c == 256 - Formula(t, l, c) % 0x100
  {
  }

  predicate Above(t1: nat, l1: nat, c1: nat, t2: nat, l2: nat, c2: nat) {
    t1 > t2 || (t1 == t2 && (l1 > l2 || (l1 == l2 && c1 < c2)))
  }

  /** Numeric order is lexicographic order: type first, then local preference, then the lower component. */
  lemma OrderIsLexicographic(t1: nat, l1: nat, c1: nat, t2: nat, l2: nat, c2: nat)
    requires InRange(t1, l1, c1) && InRange(t2, l2, c2)
    ensures Formula(t1, l1, c1) > Formula(t2, l2, c2) <==> Above(t1, l1, c1, t2, l2, c2)
  {
  }

  /** As the code uses it: host candidates come before every other type, whatever the address. */
  lemma HostFirst(t: CandidateType, p: bool, q: bool)
    ensures Calculate(Host, p) > Calculate(t, q) <==> t != Host || (!p && q)
  {
  }
}
