/** The numbered copies of the database file, renamed in the reverse order of their
    names. */
module DatabaseCopies {
  import opened Texts

  /** The newest copy carries no number. */
  datatype Copy = Newest | Numbered(n: nat)

  type Files = map<Copy, string>

  function Numeral(d: nat): char
    requires d < 10
  {
    ('0' as int + d) as char
  }

  function Decimal(n: nat): (s: string)
    ensures s != ""
  {
    if n < 10 then [Numeral(n)] else Decimal(n / 10) + [Numeral(n % 10)]
  }

  /** What follows the name that all copies share. */
  function Name(c: Copy): string {
    if c.Newest? then "" else "." + Decimal(c.n)
  }

  predicate AllNines(n: nat) {
    n % 10 == 9 && (n < 10 || AllNines(n / 10))
  }

  /** The next number has as many digits, unless all digits are nines: then it is a
      one followed by zeros, one digit longer. */
  lemma {:induction false} NextDecimal(n: nat)
    ensures !AllNines(n) ==> |Decimal(n + 1)| == |Decimal(n)| && Decimal(n + 1) != Decimal(n) && Below(Decimal(n), Decimal(n + 1))
    ensures AllNines(n) ==> Decimal(n)[0] == '9' && Decimal(n + 1)[0] == '1'
  {
    if n < 10 {
      if n == 9 {
        assert Decimal(10) == Decimal(1) + [Numeral(0)];
      }
    } else if n % 10 < 9 {
      assert (n + 1) / 10 == n / 10 && (n + 1) % 10 == n % 10 + 1;
      var head, a, b := Decimal(n / 10), [Numeral(n % 10)], [Numeral(n % 10 + 1)];
      BelowSame(head, a, b);
      assert (head + a)[|head|] == a[0] && (head + b)[|head|] == b[0] && a[0] < b[0];
    } else {
      assert (n + 1) / 10 == n / 10 + 1 && (n + 1) % 10 == 0;
      NextDecimal(n / 10);
      if !AllNines(n / 10) {
        BelowPrefix(Decimal(n / 10), Decimal(n / 10 + 1), [Numeral(9)], [Numeral(0)]);
        assert Decimal(n + 1)[..|Decimal(n / 10)|] == Decimal(n / 10 + 1);
        assert Decimal(n)[..|Decimal(n / 10)|] == Decimal(n / 10);
      }
    }
  }

  /** Consecutive numbers sort in their order, except across all nines. */
  lemma NextSorts(n: nat)
    ensures Below(Name(Numbered(n)), Name(Numbered(n + 1))) <==> !AllNines(n)
    ensures Below(Name(Numbered(n + 1)), Name(Numbered(n))) <==> AllNines(n)
  {
    NextDecimal(n);
    BelowSame(".", Decimal(n), Decimal(n + 1));
    BelowSame(".", Decimal(n + 1), Decimal(n));
    BelowOneWay(Decimal(n), Decimal(n + 1));
  }

  /** A directory listing in the reverse order of the names. */
  predicate ListsDown(files: Files, s: seq<Copy>) {
    && (forall c :: c in s ==> c in files) && (forall c :: c in files ==> c in s)
    && (forall i, j :: 0 <= i < j < |s| ==> s[i] != s[j] && Below(Name(s[j]), Name(s[i])))
  }

  /** A copy within the limit, and the newest whatever the limit, moves up one place. */
  predicate Kept(files: Files, limit: int, c: Copy) {
    c in files && (c.Newest? || c.n < limit)
  }

  function Up(c: Copy): Copy {
    Numbered(if c.Newest? then 1 else c.n + 1)
  }

  /** Every kept copy is found one place up, and nothing else is left. */
  ghost predicate Shifted(files: Files, limit: int, after: Files) {
    && (forall c :: Kept(files, limit, c) ==> Up(c) in after && after[Up(c)] == files[c])
    && (forall d :: d in after ==> exists c :: Kept(files, limit, c) && Up(c) == d)
  }

  /** A copy whose number is all nines is to take the place of one that has another digit. */
  predicate Carry(files: Files, limit: int, n: nat) {
    1 <= n < limit && AllNines(n) && Numbered(n) in files && Numbered(n + 1) in files
  }

  ghost predicate CarryFree(files: Files, limit: int) {
    forall n: nat :: !Carry(files, limit, n)
  }

  /** Limits up to nine are safe whatever copies there are. */
  lemma SmallLimitsAreCarryFree(files: Files, limit: int)
    requires limit <= 9
    ensures CarryFree(files, limit)
  {
    forall n: nat
      ensures !Carry(files, limit, n)
    {
    }
  }

  /** Both the newest copy and a copy numbered zero are to become the first. */
  predicate Clash(files: Files, limit: int) {
    Newest in files && Kept(files, limit, Numbered(0)) && files[Newest] != files[Numbered(0)]
  }

  /** What the loop does with one name. */
  function Stepped(after: Files, limit: int, c: Copy): Files {
    if c.Numbered? && c.n >= limit then after - {c}
    else if c !in after then after
    else (after - {c})[Up(c) := after[c]]
  }

  /** What the loop does with a listing. */
  function Rotated(files: Files, limit: int, s: seq<Copy>): Files {
    if s == [] then files else Stepped(Rotated(files, limit, s[..|s| - 1]), limit, s[|s| - 1])
  }

  lemma RotatedNext(files: Files, limit: int, s: seq<Copy>, k: nat)
    requires k < |s|
    ensures Rotated(files, limit, s[..k + 1]) == Stepped(Rotated(files, limit, s[..k]), limit, s[k])
  {
    assert s[..k + 1][..k] == s[..k];
  }

  /** A copy comes after the one whose place it takes, unless a carry comes between. */
  lemma FedFirst(files: Files, s: seq<Copy>, i: nat, j: nat)
    requires ListsDown(files, s) && i < |s| && j < |s| && s[i] == Up(s[j])
    ensures i < j <==> s[j].Newest? || !AllNines(s[j].n)
  {
    if s[j].Numbered? {
      NextSorts(s[j].n);
    }
  }

  /** What has not been reached is as it was; otherwise a place holds every copy that was to move there. */
  predicate MovedTo(files: Files, limit: int, reached: seq<Copy>, d: Copy, after: Files) {
    if d in files && d !in reached then d in after && after[d] == files[d]
    else
      && (d in after <==> Fed(files, limit, reached, d, Newest) || Fed(files, limit, reached, d, Previous(d)))
      && (Fed(files, limit, reached, d, Newest) ==> after[d] == files[Newest])
      && (Fed(files, limit, reached, d, Previous(d)) ==> after[d] == files[Previous(d)])
  }

  /** The numbered copy one place down, if there is one. */
  function Previous(d: Copy): Copy {
    if d.Newest? || d.n == 0 then Newest else Numbered(d.n - 1)
  }

  predicate Fed(files: Files, limit: int, reached: seq<Copy>, d: Copy, from: Copy) {
    Kept(files, limit, from) && Up(from) == d && from in reached
  }

  ghost predicate Moved(files: Files, limit: int, reached: seq<Copy>, after: Files) {
    forall d :: MovedTo(files, limit, reached, d, after)
  }

  /** Without a carry, a copy is reached before one that takes its place. */
  lemma FedBefore(files: Files, limit: int, s: seq<Copy>, k: nat, from: Copy)
    requires ListsDown(files, s) && CarryFree(files, limit) && k < |s|
    requires Kept(files, limit, from) && Up(from) in files && from in s[..k + 1]
    ensures Up(from) in s[..k]
  {
    var i :| 0 <= i < |s| && s[i] == Up(from);
    var j :| 0 <= j < k + 1 && s[j] == from;
    if from.Numbered? { assert !Carry(files, limit, from.n); }
    FedFirst(files, s, i, j);
    assert s[..k][i] == s[i];
  }

  /** What one step does at one place. */
  lemma StepAt(after: Files, limit: int, c: Copy, d: Copy)
    ensures var next := Stepped(after, limit, c);
            if c in after && (c.Newest? || c.n < limit) && d == Up(c) then d in next && next[d] == after[c]
            else if d == c && (c in after || c.Numbered?) then d !in next
            else (d in next <==> d in after) && (d in after ==> next[d] == after[d])
  {
  }

  /** One more copy is reached: its own place and the one above it are as they should be. */
  lemma MovedStep(files: Files, limit: int, before: seq<Copy>, c: Copy, after: Files, d: Copy)
    requires !Clash(files, limit) && c in files && c !in before
    requires MovedTo(files, limit, before, c, after) && MovedTo(files, limit, before, d, after)
    requires d in files && d !in before ==>
               !Fed(files, limit, before + [c], d, Newest) && !Fed(files, limit, before + [c], d, Previous(d))
    ensures MovedTo(files, limit, before + [c], d, Stepped(after, limit, c))
  {
    StepAt(after, limit, c, d);
  }

  lemma MoveTo(files: Files, limit: int, s: seq<Copy>, k: nat, after: Files, d: Copy)
    requires ListsDown(files, s) && CarryFree(files, limit) && !Clash(files, limit) && k < |s|
    requires Moved(files, limit, s[..k], after)
    ensures MovedTo(files, limit, s[..k + 1], d, Stepped(after, limit, s[k]))
  {
    var c, reached := s[k], s[..k + 1];
    assert reached == s[..k] + [c] && c !in s[..k];
    assert MovedTo(files, limit, s[..k], c, after) && MovedTo(files, limit, s[..k], d, after);
    if d in files && d !in s[..k] {
      if Fed(files, limit, reached, d, Newest) { FedBefore(files, limit, s, k, Newest); }
      if Fed(files, limit, reached, d, Previous(d)) { FedBefore(files, limit, s, k, Previous(d)); }
    }
    MovedStep(files, limit, s[..k], c, after, d);
  }

  lemma MoveOne(files: Files, limit: int, s: seq<Copy>, k: nat, after: Files)
    requires ListsDown(files, s) && CarryFree(files, limit) && !Clash(files, limit) && k < |s|
    requires Moved(files, limit, s[..k], after)
    ensures Moved(files, limit, s[..k + 1], Stepped(after, limit, s[k]))
  {
    var reached, next := s[..k + 1], Stepped(after, limit, s[k]);
    forall d
      ensures MovedTo(files, limit, reached, d, next)
    {
      MoveTo(files, limit, s, k, after, d);
    }
  }

  /** Without a carry and a clash, the loop moves every copy. */
  lemma {:induction false} RotatedMoves(files: Files, limit: int, s: seq<Copy>, k: nat)
    requires ListsDown(files, s) && CarryFree(files, limit) && !Clash(files, limit) && k <= |s|
    ensures Moved(files, limit, s[..k], Rotated(files, limit, s[..k]))
  {
    if k > 0 {
      RotatedMoves(files, limit, s, k - 1);
      assert s[..k][..k - 1] == s[..k - 1];
      MoveOne(files, limit, s, k - 1, Rotated(files, limit, s[..k - 1]));
    }
  }

  /** Nothing moves to the later place of a carry once that place has been reached. */
  lemma SpareEmpty(files: Files, limit: int, s: seq<Copy>, k: nat, n: nat)
    requires ListsDown(files, s) && k < |s| && Carry(files, limit, n) && Numbered(n + 1) in s[..k]
    ensures Up(s[k]) != Numbered(n + 1)
  {
    if s[k] == Numbered(n) {
      var i :| 0 <= i < k && s[i] == Numbered(n + 1);
      FedFirst(files, s, i, k);
    }
  }

  lemma StepSpares(after: Files, limit: int, c: Copy, d: Copy)
    requires c == d || (d !in after && Up(c) != d)
    ensures d !in Stepped(after, limit, c)
  {
  }

  /** With a carry between two copies: once the later one is reached, its place is empty. */
  lemma {:induction false} CarryEmpties(files: Files, limit: int, s: seq<Copy>, k: nat, n: nat)
    requires ListsDown(files, s) && k <= |s| && Carry(files, limit, n) && Numbered(n + 1) in s[..k]
    ensures Numbered(n + 1) !in Rotated(files, limit, s[..k])
  {
    var before, c := s[..k - 1], s[k - 1];
    assert s[..k] == before + [c] && s[..k][..k - 1] == before;
    if c != Numbered(n + 1) {
      CarryEmpties(files, limit, s, k - 1, n);
      SpareEmpty(files, limit, s, k - 1, n);
    }
    StepSpares(Rotated(files, limit, before), limit, c, Numbered(n + 1));
  }

  /** No copy that is to be kept is lost and nothing else is left, exactly when no carry
      comes between two copies and no copy numbered zero has to give way to the newest. */
  lemma RotationShifts(files: Files, limit: int, s: seq<Copy>)
    requires ListsDown(files, s)
    ensures Shifted(files, limit, Rotated(files, limit, s)) <==> CarryFree(files, limit) && !Clash(files, limit)
  {
    assert s[..|s|] == s;
    if !CarryFree(files, limit) {
      var n: nat :| Carry(files, limit, n);
      CarryEmpties(files, limit, s, |s|, n);
      assert Kept(files, limit, Numbered(n)) && Up(Numbered(n)) !in Rotated(files, limit, s);
    } else if Clash(files, limit) {
      assert Kept(files, limit, Newest) && Up(Newest) == Up(Numbered(0));
    } else {
      RotatedMoves(files, limit, s, |s|);
      MovedShifts(files, limit, s, Rotated(files, limit, s));
    }
  }

  lemma MovedShifts(files: Files, limit: int, s: seq<Copy>, after: Files)
    requires ListsDown(files, s) && Moved(files, limit, s, after)
    ensures Shifted(files, limit, after)
  {
    forall c | Kept(files, limit, c)
      ensures Up(c) in after && after[Up(c)] == files[c]
    {
      assert MovedTo(files, limit, s, Up(c), after);
    }
    forall d | d in after
      ensures exists c :: Kept(files, limit, c) && Up(c) == d
    {
      assert MovedTo(files, limit, s, d, after);
      assert Fed(files, limit, s, d, Newest) || Fed(files, limit, s, d, Previous(d));
    }
  }

  /** At a limit of ten, copies nine and ten are both lost: nine replaces ten, and the
      loop then removes it as the tenth. */
  lemma CarryLosesBoth()
    ensures var files := map[Numbered(9) := "nine", Numbered(10) := "ten"];
            var s := [Numbered(9), Numbered(10)];
            ListsDown(files, s) && Carry(files, 10, 9) && Kept(files, 10, Numbered(9)) && Rotated(files, 10, s) == map[]
  {
    var files: Files := map[Numbered(9) := "nine", Numbered(10) := "ten"];
    var s := [Numbered(9), Numbered(10)];
    NextSorts(9);
    assert s[..1] == [Numbered(9)];
    assert Rotated(files, 10, [Numbered(9)]) == map[Numbered(10) := "nine"];
  }

  /** At the limit of three that the program uses, a copy numbered zero is overwritten. */
  lemma ZeroIsOverwritten()
    ensures var files := map[Newest := "new", Numbered(0) := "zero"];
            var s := [Numbered(0), Newest];
            ListsDown(files, s) && Kept(files, 3, Numbered(0)) && Rotated(files, 3, s) == map[Numbered(1) := "new"]
  {
    var files: Files := map[Newest := "new", Numbered(0) := "zero"];
    var s := [Numbered(0), Newest];
    assert s[..1] == [Numbered(0)];
    assert Rotated(files, 3, [Numbered(0)]) == map[Newest := "new", Numbered(1) := "zero"];
  }

  class Directory {
    var files: Files

    constructor (files: Files)
      ensures this.files == files
    {
      this.files := files;
    }

    /** The loop never loses a copy that is to be kept, exactly when no carry comes
        between two copies and no copy numbered zero has to give way to the newest. */
    method Rotate(limit: int, existing: seq<Copy>)
      requires ListsDown(files, existing)
      modifies this
      ensures files == Rotated(old(files), limit, existing)
      ensures Shifted(old(files), limit, files) <==> CarryFree(old(files), limit) && !Clash(old(files), limit)
    {
      for k := 0 to |existing|
        invariant files == Rotated(old(files), limit, existing[..k])
      {
        RotatedNext(old(files), limit, existing, k);
        var c := existing[k];
        if c.Newest? {
          if c in files { files := (files - {c})[Numbered(1) := files[c]]; }
        } else if c.n >= limit {
          files := files - {c};
        } else if c in files {
          files := (files - {c})[Numbered(c.n + 1) := files[c]];
        }
      }
      assert existing[..|existing|] == existing;
      RotationShifts(old(files), limit, existing);
    }

    /** Rotate the copies, then copy the database itself; when the new copy cannot be
        created the rotation has still happened. */
    method BackupAndRotate(database: string, limit: int, existing: seq<Copy>, creates: bool) returns (ok: bool)
      requires ListsDown(files, existing)
      modifies this
      ensures ok == creates
      ensures files == var rotated := Rotated(old(files), limit, existing); if ok then rotated[Newest := database] else rotated
      ensures CarryFree(old(files), limit) && !Clash(old(files), limit) ==> Shifted(old(files), limit, files - {Newest})
    {
      Rotate(limit, existing);
      ok := creates;
      ghost var rotated := files;
      if ok { files := files[Newest := database]; }
      if CarryFree(old(files), limit) && !Clash(old(files), limit) {
        assert files - {Newest} == rotated;
      }
    }
  }
}
