// The allowed-fields check of an input policy (validators/input_policy.py): a pruned recursion
// over the arguments, against the flat rule it stands for.
module InputPolicy {

  // An argument: an object, with its members in order, or anything else.
  datatype Value = Other | Object(members: seq<Member>)

  datatype Member = Member(key: string, value: Value)

  type Path = seq<string>

  datatype Problem = MustBeObject(path: Path) | NotAllowed(path: Path)

  function SplitDots(field: string): (pieces: Path)
    ensures pieces != []
  {
    if field == "" then [""]
    else
      var rest := SplitDots(field[1..]);
      if field[0] == '.' then [""] + rest else [[field[0]] + rest[0]] + rest[1..]
  }

  function JoinDots(pieces: Path): string
    requires pieces != []
  {
    if |pieces| == 1 then pieces[0] else pieces[0] + "." + JoinDots(pieces[1..])
  }

  // A field's path is the field cut at every dot, and nowhere else.
  lemma {:induction false} SplitDotsCutsAtDots(field: string)
    ensures JoinDots(SplitDots(field)) == field
    ensures forall i | 0 <= i < |SplitDots(field)| :: '.' !in SplitDots(field)[i]
  {
    if field != "" {
      SplitDotsCutsAtDots(field[1..]);
      var rest := SplitDots(field[1..]);
      if field[0] == '.' {
        assert ([""] + rest)[1..] == rest;
      } else {
        assert ([[field[0]] + rest[0]] + rest[1..])[1..] == rest[1..];
      }
    }
  }

  predicate IsAllowedLeaf(path: Path, allowed: seq<Path>) {
    exists i :: 0 <= i < |allowed| && allowed[i] <= path
  }

  predicate IsAllowedAncestor(path: Path, allowed: seq<Path>) {
    exists i :: 0 <= i < |allowed| && |path| < |allowed[i]| && path <= allowed[i]
  }

  function Problems(value: Value, prefix: Path, allowed: seq<Path>): seq<Problem>
    decreases value, 1, 0
  {
    if value.Other? then [MustBeObject(prefix)] else MemberProblems(value, |value.members|, prefix, allowed)
  }

  // The problems of the first `n` members.
  function MemberProblems(value: Value, n: nat, prefix: Path, allowed: seq<Path>): seq<Problem>
    requires value.Object? && n <= |value.members|
    decreases value, 0, n
  {
    if n == 0 then []
    else MemberProblems(value, n - 1, prefix, allowed) + OneMember(value, n - 1, prefix, allowed)
  }

  function OneMember(value: Value, i: nat, prefix: Path, allowed: seq<Path>): seq<Problem>
    requires value.Object? && i < |value.members|
    decreases value, 0, i
  {
    var path := prefix + [value.members[i].key];
    if IsAllowedLeaf(path, allowed) then []
    else if IsAllowedAncestor(path, allowed) then Problems(value.members[i].value, path, allowed)
    else [NotAllowed(path)]
  }

  // Appends to the errors found so far.
  method CollectDisallowed(value: Value, prefix: Path, allowed: seq<Path>, found: seq<Problem>)
    returns (errors: seq<Problem>)
    ensures errors == found + Problems(value, prefix, allowed)
    decreases value
  {
    errors := found;
    if value.Other? {
      errors := errors + [MustBeObject(prefix)];
      return;
    }
    for i := 0 to |value.members|
      invariant errors == found + MemberProblems(value, i, prefix, allowed)
    {
      var path := prefix + [value.members[i].key];
      if IsAllowedLeaf(path, allowed) { continue; }
      if IsAllowedAncestor(path, allowed) {
        errors := CollectDisallowed(value.members[i].value, path, allowed, errors);
        continue;
      }
      errors := errors + [NotAllowed(path)];
    }
  }

  function AllowedPaths(fields: seq<string>): (paths: seq<Path>)
    ensures |paths| == |fields| && forall i | 0 <= i < |fields| :: paths[i] == SplitDots(fields[i])
  {
    seq(|fields|, i requires 0 <= i < |fields| => SplitDots(fields[i]))
  }

  method AllowedFieldErrors(arguments: Value, fields: seq<string>) returns (errors: seq<Problem>)
    ensures errors == [] <==> fields == [] || MeetsFlatRule(arguments, AllowedPaths(fields))
    ensures fields != [] ==> forall p :: p in errors <==> Reported(arguments, AllowedPaths(fields), p)
  {
    if fields == [] { return []; }
    var paths := AllowedPaths(fields);
    errors := CollectDisallowed(arguments, [], paths, []);
    PrunedEqualsFlat(arguments, paths);
    ReportedExactly(arguments, paths);
  }

  // -------- The flat rule --------

  // `found` is what `value` holds at `path`.
  ghost predicate Holds(value: Value, path: Path, found: Value)
    decreases |path|
  {
    if path == [] then value == found
    else value.Object? && exists i :: 0 <= i < |value.members| && value.members[i].key == path[0]
                                      && Holds(value.members[i].value, path[1..], found)
  }

  // An existing path is an allowed path or below one, or it leads to one and holds an object.
  predicate Fine(path: Path, found: Value, allowed: seq<Path>) {
    || (exists i :: 0 <= i < |allowed| && allowed[i] <= path)
    || (found.Object? && exists i :: 0 <= i < |allowed| && path < allowed[i])
  }

  ghost predicate AllFine(value: Value, prefix: Path, allowed: seq<Path>) {
    forall path, found | path != [] && Holds(value, path, found) :: Fine(prefix + path, found, allowed)
  }

  ghost predicate MeetsFlatRule(value: Value, allowed: seq<Path>) {
    value.Object? && AllFine(value, [], allowed)
  }

  lemma LeavesExtend(path: Path, more: Path, allowed: seq<Path>)
    requires IsAllowedLeaf(path, allowed) && path <= more
    ensures IsAllowedLeaf(more, allowed)
  {
    var i :| 0 <= i < |allowed| && allowed[i] <= path;
    assert allowed[i] <= more;
  }

  lemma MemberHolds(value: Value, i: nat, rest: Path, found: Value)
    requires value.Object? && i < |value.members| && Holds(value.members[i].value, rest, found)
    ensures Holds(value, [value.members[i].key] + rest, found)
  {
    assert ([value.members[i].key] + rest)[1..] == rest;
  }

  predicate QuietUpTo(value: Value, n: nat, prefix: Path, allowed: seq<Path>)
    requires value.Object? && n <= |value.members|
  {
    forall i | 0 <= i < n :: OneMember(value, i, prefix, allowed) == []
  }

  lemma {:induction false} NoMemberProblems(value: Value, n: nat, prefix: Path, allowed: seq<Path>)
    requires value.Object? && n <= |value.members|
    ensures MemberProblems(value, n, prefix, allowed) == [] <==> QuietUpTo(value, n, prefix, allowed)
  {
    if n > 0 {
      NoMemberProblems(value, n - 1, prefix, allowed);
      var earlier, last := MemberProblems(value, n - 1, prefix, allowed), OneMember(value, n - 1, prefix, allowed);
      assert MemberProblems(value, n, prefix, allowed) == earlier + last;
      assert earlier + last == [] <==> earlier == [] && last == [];
      assert QuietUpTo(value, n, prefix, allowed) <==> QuietUpTo(value, n - 1, prefix, allowed) && last == [];
    }
  }

  lemma {:induction false} QuietWhenFine(value: Value, prefix: Path, allowed: seq<Path>)
    requires value.Object? && AllFine(value, prefix, allowed)
    ensures Problems(value, prefix, allowed) == []
    decreases value
  {
    forall i | 0 <= i < |value.members| ensures OneMember(value, i, prefix, allowed) == [] {
      var m := value.members[i];
      var path := prefix + [m.key];
      MemberHolds(value, i, [], m.value);
      assert [m.key] + [] == [m.key];
      assert Fine(prefix + [m.key], m.value, allowed);
      if !IsAllowedLeaf(path, allowed) {
        forall rest, found | rest != [] && Holds(m.value, rest, found) ensures Fine(path + rest, found, allowed) {
          MemberHolds(value, i, rest, found);
          assert prefix + ([m.key] + rest) == path + rest;
        }
        QuietWhenFine(m.value, path, allowed);
      }
    }
    NoMemberProblems(value, |value.members|, prefix, allowed);
  }

  lemma {:induction false} FineWhenQuiet(value: Value, prefix: Path, allowed: seq<Path>, path: Path, found: Value)
    requires Problems(value, prefix, allowed) == [] && path != [] && Holds(value, path, found)
    ensures Fine(prefix + path, found, allowed)
    decreases value
  {
    NoMemberProblems(value, |value.members|, prefix, allowed);
    var i :| 0 <= i < |value.members| && value.members[i].key == path[0]
      && Holds(value.members[i].value, path[1..], found);
    assert OneMember(value, i, prefix, allowed) == [];
    var step := prefix + [path[0]];
    assert step + path[1..] == prefix + path;
    if IsAllowedLeaf(step, allowed) {
      LeavesExtend(step, prefix + path, allowed);
    } else if |path| == 1 {
      assert prefix + path == step && path[1..] == [];
      assert Problems(found, step, allowed) == [];
    } else {
      FineWhenQuiet(value.members[i].value, step, allowed, path[1..], found);
    }
  }

  // The recursion reports nothing exactly when the flat rule holds, for arguments of any depth.
  lemma PrunedEqualsFlat(value: Value, allowed: seq<Path>)
    ensures Problems(value, [], allowed) == [] <==> MeetsFlatRule(value, allowed)
  {
    if MeetsFlatRule(value, allowed) { QuietWhenFine(value, [], allowed); }
    if Problems(value, [], allowed) == [] {
      forall path, found | path != [] && Holds(value, path, found) ensures Fine([] + path, found, allowed) {
        FineWhenQuiet(value, [], allowed, path, found);
      }
    }
  }

  // -------- Which paths are reported --------

  predicate Leads(path: Path, allowed: seq<Path>) {
    && (forall i | 0 <= i < |allowed| :: !(allowed[i] <= path))
    && exists i :: 0 <= i < |allowed| && path < allowed[i]
  }

  // Everything on the way to `path`, up to length `n`, only leads to allowed paths.
  predicate LeadsUpTo(prefix: Path, path: Path, n: nat, allowed: seq<Path>)
    requires n <= |path|
  {
    forall k | 0 < k <= n :: Leads(prefix + path[..k], allowed)
  }

  // A path is reported when it leads to an allowed path but holds no object, or when it is the
  // first one on its way that leads nowhere.
  ghost predicate Offends(value: Value, prefix: Path, allowed: seq<Path>, p: Problem, path: Path, found: Value) {
    && Holds(value, path, found) && p.path == prefix + path
    && match p
       case MustBeObject(_) => found.Other? && LeadsUpTo(prefix, path, |path|, allowed)
       case NotAllowed(q) => path != [] && LeadsUpTo(prefix, path, |path| - 1, allowed)
                             && forall i | 0 <= i < |allowed| :: !(allowed[i] <= q) && !(q < allowed[i])
  }

  ghost predicate Reported(value: Value, allowed: seq<Path>, p: Problem) {
    exists path, found :: Offends(value, [], allowed, p, path, found)
  }

  predicate AmongFirst(value: Value, n: nat, prefix: Path, allowed: seq<Path>, p: Problem)
    requires value.Object? && n <= |value.members|
  {
    exists i :: 0 <= i < n && p in OneMember(value, i, prefix, allowed)
  }

  lemma {:induction false} ProblemOfSomeMember(value: Value, n: nat, prefix: Path, allowed: seq<Path>, p: Problem)
    requires value.Object? && n <= |value.members|
    ensures p in MemberProblems(value, n, prefix, allowed) <==> AmongFirst(value, n, prefix, allowed, p)
  {
    if n > 0 {
      ProblemOfSomeMember(value, n - 1, prefix, allowed, p);
      var earlier, last := MemberProblems(value, n - 1, prefix, allowed), OneMember(value, n - 1, prefix, allowed);
      assert MemberProblems(value, n, prefix, allowed) == earlier + last;
      assert AmongFirst(value, n, prefix, allowed, p) <==> AmongFirst(value, n - 1, prefix, allowed, p) || p in last;
    }
  }

  lemma StepIn(prefix: Path, key: string, rest: Path, n: nat, allowed: seq<Path>)
    requires n <= |rest|
    ensures LeadsUpTo(prefix, [key] + rest, n + 1, allowed)
       <==> Leads(prefix + [key], allowed) && LeadsUpTo(prefix + [key], rest, n, allowed)
  {
    var path, step := [key] + rest, prefix + [key];
    assert path[..1] == [key];
    forall k | 0 < k <= n ensures prefix + path[..k + 1] == step + rest[..k] {
      assert path[..k + 1] == [key] + rest[..k];
    }
    if LeadsUpTo(prefix, path, n + 1, allowed) {
      assert Leads(prefix + path[..1], allowed);
      forall k | 0 < k <= n ensures Leads(step + rest[..k], allowed) { assert Leads(prefix + path[..k + 1], allowed); }
    }
    if Leads(step, allowed) && LeadsUpTo(step, rest, n, allowed) {
      forall k | 0 < k <= n + 1 ensures Leads(prefix + path[..k], allowed) {
        if k > 1 { assert Leads(step + rest[..k - 1], allowed); }
      }
    }
  }

  lemma {:induction false} ReportIsReal(value: Value, prefix: Path, allowed: seq<Path>, p: Problem)
    returns (path: Path, found: Value)
    requires p in Problems(value, prefix, allowed)
    ensures Offends(value, prefix, allowed, p, path, found)
    decreases value
  {
    if value.Other? {
      path, found := [], value;
      assert prefix + [] == prefix;
    } else {
      ProblemOfSomeMember(value, |value.members|, prefix, allowed, p);
      var i :| 0 <= i < |value.members| && p in OneMember(value, i, prefix, allowed);
      var m := value.members[i];
      var step := prefix + [m.key];
      if Leads(step, allowed) {
        var rest;
        rest, found := ReportIsReal(m.value, step, allowed, p);
        path := [m.key] + rest;
        MemberHolds(value, i, rest, found);
        StepIn(prefix, m.key, rest, if p.MustBeObject? then |rest| else |rest| - 1, allowed);
        assert prefix + path == step + rest;
      } else {
        path, found := [m.key], m.value;
        MemberHolds(value, i, [], m.value);
        assert [m.key] + [] == [m.key];
      }
    }
  }

  lemma {:induction false} OffenceIsReported(value: Value, prefix: Path, allowed: seq<Path>, p: Problem, path: Path,
                                             found: Value)
    requires Offends(value, prefix, allowed, p, path, found)
    ensures p in Problems(value, prefix, allowed)
    decreases value
  {
    if path == [] {
      assert prefix + [] == prefix;
    } else {
      var i :| 0 <= i < |value.members| && value.members[i].key == path[0]
        && Holds(value.members[i].value, path[1..], found);
      var m, rest := value.members[i], path[1..];
      var step := prefix + [m.key];
      assert path == [m.key] + rest && prefix + path == step + rest;
      if p.NotAllowed? && rest == [] {
        assert step == prefix + path;
      } else {
        StepIn(prefix, m.key, rest, if p.MustBeObject? then |rest| else |rest| - 1, allowed);
        OffenceIsReported(m.value, step, allowed, p, rest, found);
      }
      assert p in OneMember(value, i, prefix, allowed);
      ProblemOfSomeMember(value, |value.members|, prefix, allowed, p);
    }
  }

  lemma ReportedExactly(value: Value, allowed: seq<Path>)
    ensures forall p :: p in Problems(value, [], allowed) <==> Reported(value, allowed, p)
  {
    forall p ensures p in Problems(value, [], allowed) <==> Reported(value, allowed, p) {
      if p in Problems(value, [], allowed) {
        var path, found := ReportIsReal(value, [], allowed, p);
      }
      if Reported(value, allowed, p) {
        var path, found :| Offends(value, [], allowed, p, path, found);
        OffenceIsReported(value, [], allowed, p, path, found);
      }
    }
  }
}
