/** Machine ids of a deployment (internal/provisioners/fanout.go): how they are
    made, that they never clash, and what ownership read off the name sees. */
module Names {
  import opened Common

  // ----- Decimal printing -------------------------------------------------

  predicate IsDigit(c: char) { '0' <= c <= '9' }

  predicate AllDigits(s: string) { forall i :: 0 <= i < |s| ==> IsDigit(s[i]) }

  function Digit(d: nat): (c: char)
    requires d < 10
    ensures IsDigit(c)
  {
    "0123456789"[d]
  }

  lemma DigitInjective(a: nat, b: nat)
    requires a < 10 && b < 10 && Digit(a) == Digit(b)
    ensures a == b
  {
  }

  /** fmt's %d of a non-negative number. */
  function Decimal(n: nat): (s: string)
    ensures s != [] && AllDigits(s)
  {
    if n < 10 then [Digit(n)] else Decimal(n / 10) + [Digit(n % 10)]
  }

  lemma {:induction false} DecimalInjective(a: nat, b: nat)
    requires Decimal(a) == Decimal(b)
    ensures a == b
  {
    var s, t := Decimal(a), Decimal(b);
    assert s[|s| - 1] == Digit(a % 10) && t[|t| - 1] == Digit(b % 10);
    assert a >= 10 ==> |s| == |Decimal(a / 10)| + 1 >= 2;
    assert b >= 10 ==> |t| == |Decimal(b / 10)| + 1 >= 2;
    DigitInjective(a % 10, b % 10);
    if a >= 10 && b >= 10 {
      assert Decimal(a / 10) == s[..|s| - 1] && Decimal(b / 10) == t[..|t| - 1];
      DecimalInjective(a / 10, b / 10);
    }
  }

  function ValueOf(s: string): nat
    requires AllDigits(s)
  {
    if s == "" then 0 else 10 * ValueOf(s[..|s| - 1]) + (s[|s| - 1] as int - '0' as int)
  }

  lemma DigitValue(d: nat)
    requires d < 10
    ensures Digit(d) as int == '0' as int + d
  {
  }

  /** Reading the digits back gives the number, and there is no leading zero. */
  lemma {:induction false} DecimalValue(n: nat)
    ensures ValueOf(Decimal(n)) == n
    ensures n > 0 ==> Decimal(n)[0] != '0'
  {
    var s := Decimal(n);
    DigitValue(n % 10);
    if n < 10 {
      assert s[..0] == "";
    } else {
      DecimalValue(n / 10);
      assert s[..|s| - 1] == Decimal(n / 10) && s[0] == Decimal(n / 10)[0];
    }
  }

  /** Digits that stop earlier are followed by something that is no digit. */
  lemma LongerDigitsDiffer(s: string, x: string, t: string, y: string)
    requires |s| < |t| && AllDigits(t) && (x == [] || !IsDigit(x[0]))
    ensures s + x != t + y
  {
    assert (t + y)[|s|] == t[|s|];
    assert x != [] ==> (s + x)[|s|] == x[0];
  }

  /** A number followed by a separator, or by nothing, can be read back. */
  lemma DecimalThen(a: nat, x: string, b: nat, y: string)
    requires Decimal(a) + x == Decimal(b) + y
    requires (x == [] || !IsDigit(x[0])) && (y == [] || !IsDigit(y[0]))
    ensures a == b && x == y
  {
    var s, t := Decimal(a), Decimal(b);
    assert |s| == |t| by {
      if |s| < |t| {
        LongerDigitsDiffer(s, x, t, y);
      } else if |t| < |s| {
        LongerDigitsDiffer(t, y, s, x);
      }
    }
    assert (s + x)[..|s|] == s && (t + y)[..|t|] == t && (s + x)[|s|..] == x && (t + y)[|t|..] == y;
    DecimalInjective(a, b);
  }

  // ----- The naming convention --------------------------------------------

  function ReplicaInstanceId(deploy: string, slot: nat, totalSlots: nat): string {
    if totalSlots == 1 then deploy else deploy + "-r" + Decimal(slot)
  }

  function NodeInstanceId(member: string, node: nat, totalNodes: nat): string {
    if totalNodes <= 1 then member else member + "-n" + Decimal(node)
  }

  predicate HasPrefix(s: string, p: string) { |p| <= |s| && s[..|p|] == p }

  predicate OwnsInstance(deploy: string, id: string) {
    id == deploy ||
    (HasPrefix(id, deploy + "-r") && id[|deploy| + 2..] != [] && AllDigits(id[|deploy| + 2..]))
  }

  /** What a machine name adds to the deployment id: a part for the slot, absent
      for a single-slot deployment, and one for the node, absent for a member
      with one machine. */
  function Part(present: bool, letter: char, n: nat): string {
    if present then ['-', letter] + Decimal(n) else []
  }

  function Suffix(named: bool, slot: nat, multi: bool, node: nat): string {
    Part(named, 'r', slot) + Part(multi, 'n', node)
  }

  lemma NodePartInjective(multi: bool, node: nat, multi': bool, node': nat)
    requires Part(multi, 'n', node) == Part(multi', 'n', node')
    ensures multi == multi' && (multi ==> node == node')
  {
    if multi && multi' {
      assert Part(multi, 'n', node)[2..] == Decimal(node) && Part(multi', 'n', node')[2..] == Decimal(node');
      DecimalInjective(node, node');
    }
  }

  lemma AfterLetter(letter: char, digits: string, tail: string)
    ensures var s := ['-', letter] + digits + tail;
            |s| >= 2 && s[1] == letter && s[2..] == digits + tail
  {
  }

  lemma SecondLetter(named: bool, slot: nat, multi: bool, node: nat)
    ensures named ==> |Suffix(named, slot, multi, node)| >= 2 && Suffix(named, slot, multi, node)[1] == 'r'
    ensures named ==> Suffix(named, slot, multi, node)[2..] == Decimal(slot) + Part(multi, 'n', node)
    ensures !named ==> Suffix(named, slot, multi, node) == Part(multi, 'n', node)
    ensures !named && multi ==> |Suffix(named, slot, multi, node)| >= 2 && Suffix(named, slot, multi, node)[1] == 'n'
  {
    if named {
      AfterLetter('r', Decimal(slot), Part(multi, 'n', node));
    } else {
      assert Suffix(named, slot, multi, node) == Part(multi, 'n', node);
      if multi {
        AfterLetter('n', Decimal(node), []);
        assert ['-', 'n'] + Decimal(node) + [] == ['-', 'n'] + Decimal(node);
      }
    }
  }

  lemma SuffixInjective(named: bool, slot: nat, multi: bool, node: nat, named': bool, slot': nat, multi': bool, node': nat)
    requires Suffix(named, slot, multi, node) == Suffix(named', slot', multi', node')
    ensures named == named' && (named ==> slot == slot')
    ensures multi == multi' && (multi ==> node == node')
  {
    SecondLetter(named, slot, multi, node);
    SecondLetter(named', slot', multi', node');
    if named {
      DecimalThen(slot, Part(multi, 'n', node), slot', Part(multi', 'n', node'));
    }
    NodePartInjective(multi, node, multi', node');
  }

  /** Machine `node` of `nodes`, behind slot `slot` of `slots`. */
  datatype Position = Position(slot: nat, slots: nat, node: nat, nodes: nat)

  function NameAt(deploy: string, x: Position): string {
    NodeInstanceId(ReplicaInstanceId(deploy, x.slot, x.slots), x.node, x.nodes)
  }

  function Tail(x: Position): string { Suffix(x.slots != 1, x.slot, x.nodes > 1, x.node) }

  lemma NameAtTail(deploy: string, x: Position)
    ensures NameAt(deploy, x) == deploy + Tail(x)
  {
    var slot, node := Part(x.slots != 1, 'r', x.slot), Part(x.nodes > 1, 'n', x.node);
    assert "-r" == ['-', 'r'] && "-n" == ['-', 'n'];
    assert deploy + slot + node == deploy + (slot + node);
    assert x.slots != 1 ==> deploy + "-r" + Decimal(x.slot) == deploy + slot;
    assert x.slots == 1 ==> deploy + slot == deploy;
    assert x.nodes > 1 ==> (deploy + slot) + "-n" + Decimal(x.node) == deploy + slot + node;
  }

  // ----- One create and any number of scale-ups ---------------------------

  /** The members placed by one create (batch 0) or scale-up, each with its
      number of machines. */
  type Batches = seq<seq<nat>>

  /** Slots that exist before batch b. */
  function Start(bs: Batches, b: nat): nat
    requires b <= |bs|
  {
    if b == 0 then 0 else Start(bs, b - 1) + |bs[b - 1]|
  }

  lemma {:induction false} StartGrows(bs: Batches, b: nat, c: nat)
    requires b < c <= |bs|
    ensures Start(bs, b) + |bs[b]| <= Start(bs, c)
    decreases c
  {
    if b < c - 1 {
      StartGrows(bs, b, c - 1);
    }
  }

  /** A machine: member i of batch b, node k. */
  predicate Placed(bs: Batches, b: nat, i: nat, k: nat) {
    b < |bs| && i < |bs[b]| && k < bs[b][i]
  }

  /** The id placeMember gives it: totalSlots is the slot count after the batch. */
  function MachineId(deploy: string, bs: Batches, b: nat, i: nat, k: nat): string
    requires Placed(bs, b, i, k)
  {
    NameAt(deploy, Position(Start(bs, b) + i, Start(bs, b) + |bs[b]|, k, bs[b][i]))
  }

  /** Whether the batch's slots carry their number. */
  predicate Numbered(bs: Batches, b: nat)
    requires b < |bs|
  {
    Start(bs, b) + |bs[b]| != 1
  }

  predicate IsNamed(id: string, deploy: string, named: bool, slot: nat, multi: bool, node: nat) {
    id == deploy + Suffix(named, slot, multi, node)
  }

  lemma MachineIdSuffix(deploy: string, bs: Batches, b: nat, i: nat, k: nat)
    requires Placed(bs, b, i, k)
    ensures IsNamed(MachineId(deploy, bs, b, i, k), deploy, Numbered(bs, b), Start(bs, b) + i, bs[b][i] > 1, k)
  {
    NameAtTail(deploy, Position(Start(bs, b) + i, Start(bs, b) + |bs[b]|, k, bs[b][i]));
  }

  /** Slot numbers tell the members of all batches apart. */
  lemma SlotsDistinct(bs: Batches, b: nat, i: nat, b': nat, i': nat)
    requires b < |bs| && i < |bs[b]| && b' < |bs| && i' < |bs[b']|
    requires Start(bs, b) + i == Start(bs, b') + i'
    ensures b == b' && i == i'
  {
    if b < b' {
      StartGrows(bs, b, b');
    } else if b' < b {
      StartGrows(bs, b', b);
    }
  }

  /** Across one create and any sequence of scale-ups, no two machines get the
      same id. */
  lemma MachineIdsDistinct(deploy: string, bs: Batches, b: nat, i: nat, k: nat, b': nat, i': nat, k': nat)
    requires Placed(bs, b, i, k) && Placed(bs, b', i', k')
    requires MachineId(deploy, bs, b, i, k) == MachineId(deploy, bs, b', i', k')
    ensures b == b' && i == i' && k == k'
  {
    MachineIdSuffix(deploy, bs, b, i, k);
    MachineIdSuffix(deploy, bs, b', i', k');
    SameNameSameSlot(MachineId(deploy, bs, b, i, k), deploy, bs, b, i, k, b', i', k');
    SlotsDistinct(bs, b, i, b', i');
  }

  /** An unnumbered batch has only slot 0, a one-machine member only node 0. */
  lemma UnnamedIsZero(bs: Batches, b: nat, i: nat, k: nat)
    requires Placed(bs, b, i, k)
    ensures !Numbered(bs, b) ==> Start(bs, b) + i == 0
    ensures !(bs[b][i] > 1) ==> k == 0
  {
  }

  /** Two positions that yield one id, written out, are one slot and one node. */
  lemma SameNameSameSlot(id: string, deploy: string, bs: Batches, b: nat, i: nat, k: nat, b': nat, i': nat, k': nat)
    requires Placed(bs, b, i, k) && Placed(bs, b', i', k')
    requires IsNamed(id, deploy, Numbered(bs, b), Start(bs, b) + i, bs[b][i] > 1, k)
    requires IsNamed(id, deploy, Numbered(bs, b'), Start(bs, b') + i', bs[b'][i'] > 1, k')
    ensures Start(bs, b) + i == Start(bs, b') + i' && k == k'
  {
    SuffixTellsApart(id, deploy, Numbered(bs, b), Start(bs, b) + i, bs[b][i] > 1, k,
                     Numbered(bs, b'), Start(bs, b') + i', bs[b'][i'] > 1, k');
    UnnamedIsZero(bs, b, i, k);
    UnnamedIsZero(bs, b', i', k');
  }

  lemma SuffixTellsApart(id: string, deploy: string, named: bool, slot: nat, multi: bool, node: nat,
                         named': bool, slot': nat, multi': bool, node': nat)
    requires IsNamed(id, deploy, named, slot, multi, node) && IsNamed(id, deploy, named', slot', multi', node')
    ensures named == named' && (named ==> slot == slot')
    ensures multi == multi' && (multi ==> node == node')
  {
    SamePrefix(deploy, Suffix(named, slot, multi, node), Suffix(named', slot', multi', node'));
    SuffixInjective(named, slot, multi, node, named', slot', multi', node');
  }

  lemma SamePrefix(p: string, s: string, t: string)
    requires p + s == p + t
    ensures s == t
  {
    assert (p + s)[|p|..] == s && (p + t)[|p|..] == t;
  }

  /** Ownership by name sees exactly the one-machine members: every machine of a
      member that spans several is disowned. */
  lemma OwnsExactlyOneNodeMembers(deploy: string, bs: Batches, b: nat, i: nat, k: nat)
    requires Placed(bs, b, i, k)
    ensures OwnsInstance(deploy, MachineId(deploy, bs, b, i, k)) <==> bs[b][i] == 1
  {
    MachineIdSuffix(deploy, bs, b, i, k);
    OwnsSuffix(deploy, Numbered(bs, b), Start(bs, b) + i, bs[b][i] > 1, k);
  }

  lemma OwnsNumbered(deploy: string, s: string)
    requires |s| >= 2 && s[0] == '-' && s[1] == 'r'
    ensures OwnsInstance(deploy, deploy + s) <==> s[2..] != [] && AllDigits(s[2..])
  {
    var id := deploy + s;
    assert id[..|deploy| + 2] == deploy + "-r" && id[|deploy| + 2..] == s[2..];
  }

  lemma OwnsSuffix(deploy: string, named: bool, slot: nat, multi: bool, node: nat)
    ensures OwnsInstance(deploy, deploy + Suffix(named, slot, multi, node)) <==> !multi
  {
    var s := Suffix(named, slot, multi, node);
    SecondLetter(named, slot, multi, node);
    if named {
      OwnsNumbered(deploy, s);
      assert multi ==> s[2..][|Decimal(slot)|] == '-';
    } else if multi {
      assert (deploy + s)[..|deploy| + 2][|deploy| + 1] == 'n';
      assert (deploy + "-r")[|deploy| + 1] == 'r';
    } else {
      assert deploy + s == deploy;
    }
  }

  // ----- Clashes between deployments --------------------------------------

  /** ValidateID: 1 to 63 lower-case letters, digits and hyphens, alphanumeric at
      both ends, and not in the reserved namespace. */
  predicate AlphaNum(c: char) { 'a' <= c <= 'z' || IsDigit(c) }

  predicate ValidId(id: string) {
    && 1 <= |id| <= 63 && AlphaNum(id[0]) && AlphaNum(id[|id| - 1])
    && (forall i :: 0 <= i < |id| ==> AlphaNum(id[i]) || id[i] == '-')
    && !HasPrefix(id, "iplane-")
  }

  /** e, with a single slot, is called like something inside d: either like the very
      machine x of d, and runs on one machine itself; or like the multi-node member
      that x belongs to, and spans nodes too, of which this is the same one. */
  predicate CalledLike(e: string, y: Position, d: string, x: Position) {
    y.slots == 1 &&
    if y.nodes <= 1 then e == d + Tail(x)
    else x.slots != 1 && x.nodes > 1 && x.node == y.node && e == d + "-r" + Decimal(x.slot)
  }

  lemma NodePartLetters(node: nat, j: nat)
    requires j < |Part(true, 'n', node)|
    ensures Part(true, 'n', node)[j] != 'r'
    ensures Part(true, 'n', node)[j] == 'n' <==> j == 1
  {
    var digits := Decimal(node);
    if j >= 2 {
      assert (['-', 'n'] + digits)[j] == digits[j - 2];
    }
  }

  /** Past its first two characters a suffix has no 'r', and an 'n' only after a
      slot number. */
  lemma LettersInSuffix(named: bool, slot: nat, multi: bool, node: nat, j: nat)
    requires 2 <= j < |Suffix(named, slot, multi, node)|
    ensures Suffix(named, slot, multi, node)[j] != 'r'
    ensures Suffix(named, slot, multi, node)[j] == 'n' ==> named && multi && j == |Decimal(slot)| + 3
  {
    SecondLetter(named, slot, multi, node);
    if named {
      LettersAfterSlot(Suffix(named, slot, multi, node), Decimal(slot), multi, node, j);
    } else {
      NodePartLetters(node, j);
    }
  }

  lemma LettersAfterSlot(s: string, digits: string, multi: bool, node: nat, j: nat)
    requires 2 <= j < |s| && s[2..] == digits + Part(multi, 'n', node) && AllDigits(digits)
    ensures s[j] != 'r' && (s[j] == 'n' ==> multi && j == |digits| + 3)
  {
    assert s[j] == s[2..][j - 2];
    if j - 2 >= |digits| {
      NodePartLetters(node, j - 2 - |digits|);
    }
  }

  /** When one suffix ends in another, the shorter one names no slot. */
  lemma EndsIn(named: bool, slot: nat, multi: bool, node: nat, x: string, named': bool, slot': nat, multi': bool, node': nat)
    requires x != [] && Suffix(named, slot, multi, node) == x + Suffix(named', slot', multi', node')
    ensures !named'
    ensures multi' ==> named && multi && node == node' && x == "-r" + Decimal(slot)
    ensures !multi' ==> x == Suffix(named, slot, multi, node)
  {
    var s, s' := Suffix(named, slot, multi, node), Suffix(named', slot', multi', node');
    SecondLetter(named', slot', multi', node');
    if named' || multi' {
      assert s[|x| + 1] == s'[1];
      LettersInSuffix(named, slot, multi, node, |x| + 1);
      var head := ['-', 'r'] + Decimal(slot);
      assert "-r" == ['-', 'r'];
      assert s == head + Part(multi, 'n', node);
      assert s[..|x|] == x && s[..|head|] == head;
      assert s[|x|..] == s' && s[|head|..] == Part(multi, 'n', node);
      NodePartInjective(multi, node, multi', node');
    }
  }

  lemma Overlap(d: string, s: string, e: string, t: string) returns (z: string)
    requires |d| < |e| && d + s == e + t
    ensures z != [] && e == d + z && s == z + t
  {
    z := e[|d|..];
    assert e[..|d|] == (e + t)[..|d|] == (d + s)[..|d|] == d;
    assert (d + s)[|d|..] == s && (e + t)[|d|..] == z + t;
  }

  lemma LongerIsCalledLike(d: string, x: Position, e: string, y: Position)
    requires |d| < |e| && d + Tail(x) == e + Tail(y)
    ensures CalledLike(e, y, d, x)
  {
    var z := Overlap(d, Tail(x), e, Tail(y));
    EndsIn(x.slots != 1, x.slot, x.nodes > 1, x.node, z, y.slots != 1, y.slot, y.nodes > 1, y.node);
    Associates(d, "-r", Decimal(x.slot));
  }

  lemma CalledLikeClashes(d: string, x: Position, e: string, y: Position)
    requires CalledLike(e, y, d, x)
    ensures d + Tail(x) == e + Tail(y)
  {
    assert Part(false, 'r', y.slot) == [];
    if y.nodes <= 1 {
      assert Tail(y) == [];
    } else {
      assert "-r" == ['-', 'r'];
      assert Tail(y) == Part(true, 'n', y.node);
      assert Tail(x) == ("-r" + Decimal(x.slot)) + Tail(y);
      assert d + Tail(x) == d + "-r" + Decimal(x.slot) + Tail(y);
    }
  }

  /** Two deployments name the same machine exactly when one of them is called like
      a replica, a node or a node of a replica of the other; or both put node k of
      a multi-node member there and one is called like the other's replica. */
  lemma CrossDeploymentClashIff(d: string, x: Position, e: string, y: Position)
    requires d != e
    ensures NameAt(d, x) == NameAt(e, y) <==> CalledLike(e, y, d, x) || CalledLike(d, x, e, y)
  {
    NameAtTail(d, x);
    NameAtTail(e, y);
    if CalledLike(e, y, d, x) {
      CalledLikeClashes(d, x, e, y);
    } else if CalledLike(d, x, e, y) {
      CalledLikeClashes(e, y, d, x);
    } else if d + Tail(x) == e + Tail(y) {
      if |d| < |e| {
        LongerIsCalledLike(d, x, e, y);
      } else if |e| < |d| {
        LongerIsCalledLike(e, y, d, x);
      } else {
        SameLengthSame(d, Tail(x), e, Tail(y));
      }
    }
  }

  lemma SameLengthSame(d: string, s: string, e: string, t: string)
    requires |d| == |e| && d + s == e + t
    ensures d == e
  {
    assert (d + s)[..|d|] == d && (e + t)[..|e|] == e;
  }

  /** What ValidateID turns down: nothing, more than 63 characters, a hyphen at either
      end, a character other than a lower-case letter, a digit or a hyphen, and names
      that begin with "iplane-". */
  lemma InvalidIff(id: string)
    ensures !ValidId(id)
       <==> || id == "" || |id| >= 64 || id[0] == '-' || id[|id| - 1] == '-'
            || (exists i :: 0 <= i < |id| && id[i] != '-' && !('a' <= id[i] <= 'z') && !('0' <= id[i] <= '9'))
            || (|id| >= 7 && id[..7] == "iplane-")
  {
    if id != "" && !ValidId(id) && id[0] != '-' && id[|id| - 1] != '-' && !AlphaNum(id[0]) {
      assert id[0] != '-' && !('a' <= id[0] <= 'z') && !('0' <= id[0] <= '9');
    }
  }

  /** Every form of clash happens between ids that ValidateID accepts. */
  lemma ValidIdsCanClash()
    ensures ValidId("a") && ValidId("a-r1") && ValidId("a-n0") && ValidId("a-r1-n0")
    ensures NameAt("a", Position(1, 2, 0, 1)) == NameAt("a-r1", Position(0, 1, 0, 1))
    ensures NameAt("a", Position(0, 1, 0, 2)) == NameAt("a-n0", Position(0, 1, 0, 1))
    ensures NameAt("a", Position(1, 2, 0, 2)) == NameAt("a-r1-n0", Position(0, 1, 0, 1))
    ensures NameAt("a", Position(1, 2, 0, 2)) == NameAt("a-r1", Position(0, 1, 0, 2))
    ensures OwnsInstance("a", "a-r1") && OwnsInstance("a-r1", "a-r1")
  {
    assert Decimal(0) == "0" && Decimal(1) == "1";
    assert "a" + "-r" + "1" == "a-r1" && "a" + "-n" + "0" == "a-n0" && "a-r1" + "-n" + "0" == "a-r1-n0";
    assert "a-r1"[..3] == "a" + "-r" && "a-r1"[3..] == "1";
    Spelled("a", "a-r1", "a-n0", "a-r1-n0");
  }

  lemma Spelled(a: string, b: string, c: string, d: string)
    requires a == "a" && b == "a-r1" && c == "a-n0" && d == "a-r1-n0"
    ensures ValidId(a) && ValidId(b) && ValidId(c) && ValidId(d)
  {
    assert b[0] == 'a' && b[1] == '-' && b[2] == 'r' && b[3] == '1';
    assert c[0] == 'a' && c[1] == '-' && c[2] == 'n' && c[3] == '0';
    assert d[0] == 'a' && d[1] == '-' && d[2] == 'r' && d[3] == '1' && d[4] == '-' && d[5] == 'n' && d[6] == '0';
  }
}
