/**
 * The check/apply/restore patcher of the frontend tree.
 *
 * Each write of a file, and each removal of a backup, is one step, and the
 * program may be stopped between any two of them.
 */
module WebPatch {
  import opened Effects

  /** The replacements to make in one file, in order; each anchor must occur exactly once. */
  datatype Change = Change(rel: nat, replacements: seq<(string, string)>)

  datatype Tree = Tree(files: map<nat, string>, backups: map<nat, string>)

  /** What is planned for one file: its original, its patched text, and whether it has that text already. */
  datatype Item = Item(rel: nat, original: string, text: string, done: bool)

  // ---- Anchors ----------------------------------------------------------------------------

  predicate Matches(text: string, pattern: string, i: nat) {
    i + |pattern| <= |text| && text[i..i + |pattern|] == pattern
  }

  /** Non-overlapping occurrences from `i`, for a pattern that is not empty. */
  function CountFrom(text: string, pattern: string, i: nat): nat
    requires pattern != []
    decreases |text| - i
  {
    if i + |pattern| > |text| then 0
    else if Matches(text, pattern, i) then 1 + CountFrom(text, pattern, i + |pattern|)
    else CountFrom(text, pattern, i + 1)
  }

  function Count(text: string, pattern: string): nat {
    if pattern == [] then |text| + 1 else CountFrom(text, pattern, 0)
  }

  /** The first occurrence from `i`, or the length. */
  function First(text: string, pattern: string, i: nat): (k: nat)
    requires i <= |text|
    ensures i <= k <= |text| && (k < |text| ==> Matches(text, pattern, k))
    decreases |text| - i
  {
    if i == |text| || Matches(text, pattern, i) then i else First(text, pattern, i + 1)
  }

  function ReplaceFirst(text: string, before: string, after: string): string {
    var k := First(text, before, 0);
    if Matches(text, before, k) then text[..k] + after + text[k + |before|..] else text
  }

  /** The text after all replacements, or nothing if an anchor is not found exactly once. */
  function Patched(text: string, replacements: seq<(string, string)>): Option<string>
    decreases |replacements|
  {
    if replacements == [] then Some(text)
    else
      var (before, after) := replacements[0];
      if Count(text, before) != 1 then None else Patched(ReplaceFirst(text, before, after), replacements[1..])
  }

  /** The anchor stands at `k`, not before, and not again behind that. */
  ghost predicate Unique(text: string, pattern: string, k: nat) {
    && Matches(text, pattern, k) && (forall j :: 0 <= j < k ==> !Matches(text, pattern, j))
    && forall j :: k < j && k + |pattern| <= j ==> !Matches(text, pattern, j)
  }

  lemma {:induction false} NoneCounted(text: string, pattern: string, i: nat)
    requires pattern != []
    ensures CountFrom(text, pattern, i) == 0 <==> forall j :: i <= j ==> !Matches(text, pattern, j)
    decreases |text| - i
  {
    if i + |pattern| <= |text| && !Matches(text, pattern, i) { NoneCounted(text, pattern, i + 1); }
  }

  lemma {:induction false} OneCounted(text: string, pattern: string, i: nat)
    requires pattern != [] && i <= |text|
    ensures CountFrom(text, pattern, i) == 1 <==>
              var k := First(text, pattern, i);
              Matches(text, pattern, k) && forall j :: k + |pattern| <= j ==> !Matches(text, pattern, j)
    decreases |text| - i
  {
    if i + |pattern| > |text| {
    } else if Matches(text, pattern, i) {
      NoneCounted(text, pattern, i + |pattern|);
    } else {
      OneCounted(text, pattern, i + 1);
    }
  }

  lemma {:induction false} FirstIsFirst(text: string, pattern: string, i: nat)
    requires i <= |text|
    ensures forall j :: i <= j < First(text, pattern, i) ==> !Matches(text, pattern, j)
    decreases |text| - i
  {
    if i < |text| && !Matches(text, pattern, i) { FirstIsFirst(text, pattern, i + 1); }
  }

  lemma UniqueIsFirst(text: string, pattern: string, k: nat)
    requires Unique(text, pattern, k)
    ensures First(text, pattern, 0) == k
  {
    hide First;
    FirstIsFirst(text, pattern, 0);
  }

  /** The count is one exactly if the anchor is unique. */
  lemma CountIsOne(text: string, pattern: string)
    ensures Count(text, pattern) == 1 <==> exists k: nat :: Unique(text, pattern, k)
  {
    hide CountFrom, First;
    var first := First(text, pattern, 0);
    FirstIsFirst(text, pattern, 0);
    if pattern != [] { OneCounted(text, pattern, 0); }
    if Count(text, pattern) == 1 { assert Unique(text, pattern, first); }
    if pattern == [] && text != [] { assert Matches(text, pattern, 0) && Matches(text, pattern, 1); }
    forall k: nat | Unique(text, pattern, k) ensures Count(text, pattern) == 1 { UniqueIsFirst(text, pattern, k); }
  }

  /** An anchor is accepted exactly if it is unique, and then it is what is replaced, and nothing else. */
  lemma OnlyTheAnchorChanges(text: string, before: string, after: string)
    ensures Count(text, before) == 1 <==> exists k: nat :: Unique(text, before, k)
    ensures forall k: nat :: Unique(text, before, k) ==>
                               ReplaceFirst(text, before, after) == text[..k] + after + text[k + |before|..]
  {
    hide Count, First;
    CountIsOne(text, before);
    forall k: nat | Unique(text, before, k)
      ensures ReplaceFirst(text, before, after) == text[..k] + after + text[k + |before|..]
    {
      UniqueIsFirst(text, before, k);
    }
  }

  /** One replacement: the unique anchor gives way, and all around it stays. */
  ghost predicate Replaces(text: string, replacement: (string, string), next: string) {
    exists k: nat :: Unique(text, replacement.0, k)
                     && next == text[..k] + replacement.1 + text[k + |replacement.0|..]
  }

  /** The texts between the replacements, made in their order. */
  ghost predicate Stages(stages: seq<string>, replacements: seq<(string, string)>) {
    && |stages| == |replacements| + 1
    && forall i :: 0 <= i < |replacements| ==> Replaces(stages[i], replacements[i], stages[i + 1])
  }

  lemma {:induction false} PatchedHasStages(text: string, replacements: seq<(string, string)>)
    returns (stages: seq<string>)
    requires Patched(text, replacements).Some?
    ensures Stages(stages, replacements) && stages[0] == text
    ensures stages[|replacements|] == Patched(text, replacements).value
    decreases |replacements|
  {
    hide Replaces;
    if replacements == [] {
      stages := [text];
    } else {
      var (before, after) := replacements[0];
      var next := ReplaceFirst(text, before, after);
      var rest := PatchedHasStages(next, replacements[1..]);
      OneReplaced(text, before, after);
      stages := [text] + rest;
    }
  }

  lemma OneReplaced(text: string, before: string, after: string)
    ensures Count(text, before) == 1 ==> Replaces(text, (before, after), ReplaceFirst(text, before, after))
    ensures forall next :: Replaces(text, (before, after), next) ==>
                             Count(text, before) == 1 && next == ReplaceFirst(text, before, after)
  {
    OnlyTheAnchorChanges(text, before, after);
  }

  lemma {:induction false} StagesArePatched(stages: seq<string>, replacements: seq<(string, string)>)
    requires Stages(stages, replacements)
    ensures Patched(stages[0], replacements) == Some(stages[|replacements|])
    decreases |replacements|
  {
    hide Replaces;
    if replacements != [] {
      var (before, after) := replacements[0];
      OneReplaced(stages[0], before, after);
      assert Replaces(stages[0], replacements[0], stages[1]);
      forall i | 0 <= i < |replacements| - 1
          ensures Replaces(stages[1..][i], replacements[1..][i], stages[1..][i + 1]) {
        assert Replaces(stages[i + 1], replacements[i + 1], stages[i + 2]);
      }
      StagesArePatched(stages[1..], replacements[1..]);
    }
  }

  /** Fully patched means that every replacement was made, in order, each at the one place of its anchor. */
  lemma PatchedIff(text: string, replacements: seq<(string, string)>, result: string)
    ensures Patched(text, replacements) == Some(result) <==>
              exists stages :: Stages(stages, replacements) && stages[0] == text
                               && stages[|replacements|] == result
  {
    hide Patched, Replaces;
    if Patched(text, replacements) == Some(result) { var stages := PatchedHasStages(text, replacements); }
    forall stages | Stages(stages, replacements) && stages[0] == text && stages[|replacements|] == result
      ensures Patched(text, replacements) == Some(result)
    {
      StagesArePatched(stages, replacements);
    }
  }

  // ---- The plan -------------------------------------------------------------------------------

  function Original(tree: Tree, rel: nat): string
    requires rel in tree.files
  {
    if rel in tree.backups then tree.backups[rel] else tree.files[rel]
  }

  /** The plan for one file; `None` is an error: an anchor not found once, or a file changed since it was patched. */
  function PlanOne(tree: Tree, c: Change): Option<Item>
    requires c.rel in tree.files
  {
    var original, current := Original(tree, c.rel), tree.files[c.rel];
    var text := Patched(original, c.replacements);
    if text.None? || (current != original && current != text.value) then None
    else Some(Item(c.rel, original, text.value, current == text.value))
  }

  /** The changes that replace something. */
  function Active(changes: seq<Change>): (r: seq<Change>)
    ensures forall c :: c in r <==> c in changes && c.replacements != []
  {
    if changes == [] then []
    else
      var last := changes[|changes| - 1];
      Active(changes[..|changes| - 1]) + if last.replacements != [] then [last] else []
  }

  predicate DistinctFiles(changes: seq<Change>) {
    forall i, j :: 0 <= i < j < |changes| ==> changes[i].rel != changes[j].rel
  }

  predicate Anchored(clean: map<nat, string>, c: Change) {
    c.rel in clean && Patched(clean[c.rel], c.replacements).Some?
  }

  function Goal(clean: map<nat, string>, c: Change): string
    requires Anchored(clean, c)
  {
    Patched(clean[c.rel], c.replacements).value
  }

  // ---- What every run keeps -------------------------------------------------------------------------

  /** One file is original or fully patched, its backup absent or the original, and a patched file has one. */
  predicate SoundFile(clean: map<nat, string>, c: Change, tree: Tree) {
    && c.rel in clean && c.rel in tree.files
    && (c.rel in tree.backups ==> tree.backups[c.rel] == clean[c.rel])
    && (tree.files[c.rel] == clean[c.rel]
        || (Anchored(clean, c) && tree.files[c.rel] == Goal(clean, c) && c.rel in tree.backups))
  }

  ghost predicate Sound(clean: map<nat, string>, changes: seq<Change>, tree: Tree) {
    forall c :: c in changes ==> SoundFile(clean, c, tree)
  }

  predicate CleanTree(clean: map<nat, string>, changes: seq<Change>, tree: Tree) {
    tree.files == clean && forall c :: c in changes ==> c.rel in clean && c.rel !in tree.backups
  }

  lemma CleanIsSound(clean: map<nat, string>, changes: seq<Change>, tree: Tree)
    requires CleanTree(clean, changes, tree)
    ensures Sound(clean, changes, tree)
  {
  }

  /** In a sound tree the plan is always that of the clean one, and it fails exactly when the clean one's anchors do. */
  lemma PlanIsThatOfTheCleanTree(clean: map<nat, string>, c: Change, tree: Tree)
    requires SoundFile(clean, c, tree)
    ensures PlanOne(tree, c).Some? <==> Anchored(clean, c)
    ensures Anchored(clean, c) ==>
              PlanOne(tree, c) == Some(Item(c.rel, clean[c.rel], Goal(clean, c), tree.files[c.rel] == Goal(clean, c)))
  {
  }

  function SetFile(tree: Tree, rel: nat, text: string): Tree { tree.(files := tree.files[rel := text]) }

  function SetBackup(tree: Tree, rel: nat, text: string): Tree { tree.(backups := tree.backups[rel := text]) }

  function DropBackup(tree: Tree, rel: nat): Tree { tree.(backups := tree.backups - {rel}) }

  /** Every single step of a run keeps a sound file sound. */
  lemma StepsKeep(clean: map<nat, string>, c: Change, tree: Tree)
    requires SoundFile(clean, c, tree)
    ensures SoundFile(clean, c, SetBackup(tree, c.rel, clean[c.rel]))
    ensures Anchored(clean, c) && c.rel in tree.backups ==> SoundFile(clean, c, SetFile(tree, c.rel, Goal(clean, c)))
    ensures SoundFile(clean, c, SetFile(tree, c.rel, clean[c.rel]))
    ensures tree.files[c.rel] == clean[c.rel] ==> SoundFile(clean, c, DropBackup(tree, c.rel))
  {
  }

  /** A file left half written is noticed: the plan fails, so nothing is written over it. */
  lemma TornFileFailsClosed(clean: map<nat, string>, c: Change, tree: Tree)
    requires c.rel in clean && c.rel in tree.files && c.rel in tree.backups && tree.backups[c.rel] == clean[c.rel]
    requires tree.files[c.rel] != clean[c.rel] && (Anchored(clean, c) ==> tree.files[c.rel] != Goal(clean, c))
    ensures PlanOne(tree, c).None?
  {
  }

  // ---- The patcher, in the form of the source ----------------------------------------------------------

  class Patcher {
    const changes: seq<Change>
    ghost const clean: map<nat, string>
    var files: map<nat, string>
    var backups: map<nat, string>

    ghost function T(): Tree
      reads this
    {
      Tree(files, backups)
    }

    ghost predicate Valid()
      reads this
    {
      DistinctFiles(Active(changes)) && Sound(clean, Active(changes), T())
    }

    /** The tree as the tool finds it: clean, or left by any earlier runs. */
    constructor (changes: seq<Change>, ghost clean: map<nat, string>, files: map<nat, string>,
        backups: map<nat, string>)
      requires DistinctFiles(Active(changes)) && Sound(clean, Active(changes), Tree(files, backups))
      ensures Valid() && this.changes == changes && this.clean == clean && T() == Tree(files, backups)
    {
      this.changes, this.clean, this.files, this.backups := changes, clean, files, backups;
    }

    /** What the plan says of the `k`th active change, in the tree `t`. */
    ghost predicate Planned(t: Tree, item: Item, k: nat)
      requires k < |Active(changes)|
    {
      var c := Active(changes)[k];
      && Anchored(clean, c) && c.rel in t.files
      && item == Item(c.rel, clean[c.rel], Goal(clean, c), t.files[c.rel] == Goal(clean, c))
    }

    /**
     * `plan_patches` reads only. It fails if the target is refused or any anchor of the clean tree is not found
     * once.
     */
    method PlanPatches(targetOk: bool) returns (r: Outcome<seq<Item>>)
      requires Valid()
      ensures !r.Crashed? && (r.Ok? <==> targetOk && forall c :: c in Active(changes) ==> Anchored(clean, c))
      ensures r.Ok? ==> |r.value| == |Active(changes)| && forall k :: 0 <= k < |r.value| ==> Planned(T(), r.value[k], k)
    {
      hide Patched, PlanOne, SoundFile, Active;
      if !targetOk { return Thrown(0); }
      var planned: seq<Item>, failed := [], false;
      var todo := Active(changes);
      for k := 0 to |todo|
        invariant failed <==> exists j :: 0 <= j < k && !Anchored(clean, todo[j])
        invariant !failed ==> |planned| == k && forall j :: 0 <= j < k ==> Planned(T(), planned[j], j)
      {
        FileOf(k);
        PlanIsThatOfTheCleanTree(clean, todo[k], T());
        var item := PlanOne(Tree(files, backups), todo[k]);
        if item.None? { failed := true; } else { planned := planned + [item.value]; }
      }
      r := if failed then Thrown(0) else Ok(planned);
    }

    lemma FileOf(k: nat)
      requires Valid() && k < |Active(changes)|
      ensures var c := Active(changes)[k]; SoundFile(clean, c, T()) && c.rel in files && c.rel in clean
    {
    }

    /** One step that keeps the file of `c` sound keeps the tree sound. */
    lemma OtherFilesStay(tree: Tree, k: nat)
      requires Valid() && k < |Active(changes)|
      requires var c := Active(changes)[k];
               && SoundFile(clean, c, tree) && tree.files.Keys >= files.Keys
               && (forall rel :: rel in files && rel != c.rel ==> tree.files[rel] == files[rel])
               && (forall rel :: rel != c.rel ==> (rel in tree.backups <==> rel in backups))
               && (forall rel :: rel in backups && rel != c.rel ==> tree.backups[rel] == backups[rel])
      ensures Sound(clean, Active(changes), tree)
    {
    }

    /** Nothing but the file and backup of `rel` changed. */
    ghost predicate OnlyFile(t: Tree, now: Tree, rel: nat) {
      && now.files.Keys == t.files.Keys
      && (forall other :: other != rel && other in now.files ==> now.files[other] == t.files[other])
      && (forall other :: other != rel ==> (other in now.backups <==> other in t.backups))
      && (forall other :: other != rel && other in now.backups ==> now.backups[other] == t.backups[other])
    }

    /** Files that no change names are left alone. */
    ghost predicate OnlyNamed(t: Tree, now: Tree) {
      && now.files.Keys == t.files.Keys
      && forall rel {:trigger rel in now.files} {:trigger rel in now.backups} ::
           (forall c :: c in Active(changes) ==> c.rel != rel) ==>
             && (rel in now.files ==> now.files[rel] == t.files[rel])
             && (rel in now.backups <==> rel in t.backups) &&
                 (rel in now.backups ==> now.backups[rel] == t.backups[rel])
    }

    lemma NamedRefl(t: Tree)
      ensures OnlyNamed(t, t)
    {
    }

    lemma NamedStep(t: Tree, now: Tree, next: Tree, k: nat)
      requires k < |Active(changes)| && OnlyNamed(t, now) && OnlyFile(now, next, Active(changes)[k].rel)
      ensures OnlyNamed(t, next)
    {
    }

    /** The file of the `k`th active change has the text planned for it. */
    ghost predicate HasText(t: Tree, item: Item, k: nat)
      requires k < |Active(changes)|
    {
      var c := Active(changes)[k];
      Anchored(clean, c) && item.text == Goal(clean, c) && c.rel in t.files && t.files[c.rel] == item.text
    }

    /** The file of the `k`th active change is original, without a backup. */
    ghost predicate IsOriginal(t: Tree, k: nat)
      requires k < |Active(changes)|
    {
      var c := Active(changes)[k];
      c.rel in t.files && c.rel in clean && t.files[c.rel] == clean[c.rel] && c.rel !in t.backups
    }

    /** What was planned for the other files stays planned, and what was done to them stays done. */
    ghost predicate Carried(t: Tree, now: Tree, k: nat, items: seq<Item>)
      requires |items| == |Active(changes)|
    {
      && (forall j :: 0 <= j < |items| && j != k && Planned(t, items[j], j) ==> Planned(now, items[j], j))
      && (forall j :: 0 <= j < |items| && j != k && HasText(t, items[j], j) ==> HasText(now, items[j], j))
      && (forall j :: 0 <= j < |items| && j != k && IsOriginal(t, j) ==> IsOriginal(now, j))
    }

    lemma OthersStay(t: Tree, now: Tree, k: nat, items: seq<Item>)
      requires DistinctFiles(Active(changes)) && k < |Active(changes)| == |items| &&
                OnlyFile(t, now, Active(changes)[k].rel)
      ensures Carried(t, now, k, items)
    {
    }

    /** Patches one file: the backup first, then the file; `Crashed` if stopped before either. */
    method PatchFile(k: nat, items: seq<Item>) returns (r: Outcome<()>)
      requires Valid() && k < |Active(changes)| == |items| && Planned(T(), items[k], k)
      modifies this
      ensures Valid() && OnlyFile(old(T()), T(), items[k].rel) && Carried(old(T()), T(), k, items) && !r.Thrown?
      ensures r.Ok? ==> HasText(T(), items[k], k)
      ensures items[k].done ==> T() == old(T()) && r.Ok?
    {
      hide Patched, Active, SoundFile, Carried;
      var item := items[k];
      OthersStay(old(T()), T(), k, items);
      if item.done { return Ok(()); }
      ghost var c := Active(changes)[k];
      FileOf(k);
      var stopped: bool := *;
      if stopped { return Crashed; }
      if item.rel !in backups {
        StepsKeep(clean, c, T());
        OtherFilesStay(SetBackup(T(), item.rel, item.original), k);
        backups := backups[item.rel := item.original];
        OthersStay(old(T()), T(), k, items);
      }
      stopped := *;
      if stopped { return Crashed; }
      FileOf(k);
      StepsKeep(clean, c, T());
      OtherFilesStay(SetFile(T(), item.rel, item.text), k);
      files := files[item.rel := item.text];
      OthersStay(old(T()), T(), k, items);
      return Ok(());
    }

    /**
     * `apply_patches`: an error writes nothing, a finished run patches every file, a stopped one leaves a sound
     * tree.
     */
    method ApplyPatches(targetOk: bool) returns (r: Outcome<()>)
      requires Valid()
      modifies this
      ensures Valid() && OnlyNamed(old(T()), T())
      ensures r.Thrown? <==> !(targetOk && forall c :: c in Active(changes) ==> Anchored(clean, c))
      ensures r.Thrown? ==> T() == old(T())
      ensures r.Ok? ==> AllPatched()
      ensures targetOk && old(AllPatched()) ==> r.Ok? && T() == old(T())
    {
      hide Patched, SoundFile, Active, OnlyFile, OnlyNamed, HasText, IsOriginal;
      NamedRefl(T());
      var items :- PlanPatches(targetOk);
      for k := 0 to |items|
        invariant Valid() && OnlyNamed(old(T()), T())
        invariant forall j :: 0 <= j < k ==> HasText(T(), items[j], j)
        invariant forall j :: k <= j < |items| ==> Planned(T(), items[j], j)
        invariant old(AllPatched()) ==> T() == old(T())
      {
        DoneIfPatched(items[k], k);
        ghost var before := T();
        var one := PatchFile(k, items);
        NamedStep(old(T()), before, T(), k);
        if one.Crashed? { return Crashed; }
      }
      AllHaveText(items);
      return Ok(());
    }

    lemma AllHaveText(items: seq<Item>)
      requires |items| == |Active(changes)| && forall j :: 0 <= j < |items| ==> HasText(T(), items[j], j)
      ensures AllPatched()
    {
      forall c | c in Active(changes) ensures Anchored(clean, c) && c.rel in files && files[c.rel] == Goal(clean, c) {
        var j :| 0 <= j < |items| && Active(changes)[j] == c;
        assert HasText(T(), items[j], j);
      }
    }

    lemma DoneIfPatched(item: Item, k: nat)
      requires k < |Active(changes)| && Planned(T(), item, k)
      ensures AllPatched() ==> item.done
    {
    }

    /** Restores one file that has a backup: the file first, then the backup goes. */
    method RestoreFile(k: nat, items: seq<Item>) returns (r: Outcome<()>)
      requires Valid() && k < |Active(changes)| == |items| && Planned(T(), items[k], k)
      modifies this
      ensures Valid() && OnlyFile(old(T()), T(), items[k].rel) && Carried(old(T()), T(), k, items) && !r.Thrown?
      ensures r.Ok? ==> IsOriginal(T(), k)
    {
      hide Patched, Active, Carried;
      var item := items[k];
      OthersStay(old(T()), T(), k, items);
      ghost var c := Active(changes)[k];
      FileOf(k);
      if item.rel !in backups { return Ok(()); }
      var stopped: bool := *;
      if stopped { return Crashed; }
      StepsKeep(clean, c, T());
      OtherFilesStay(SetFile(T(), item.rel, item.original), k);
      files := files[item.rel := item.original];
      OthersStay(old(T()), T(), k, items);
      stopped := *;
      if stopped { return Crashed; }
      FileOf(k);
      StepsKeep(clean, c, T());
      OtherFilesStay(DropBackup(T(), item.rel), k);
      backups := backups - {item.rel};
      OthersStay(old(T()), T(), k, items);
      return Ok(());
    }

    /** `restore_patches`: an error writes nothing, a finished run brings back the original tree. */
    method RestorePatches(targetOk: bool) returns (r: Outcome<()>)
      requires Valid()
      modifies this
      ensures Valid() && OnlyNamed(old(T()), T())
      ensures r.Thrown? <==> !(targetOk && forall c :: c in Active(changes) ==> Anchored(clean, c))
      ensures r.Thrown? ==> T() == old(T())
      ensures r.Ok? ==> AllOriginal()
    {
      hide Patched, SoundFile, Active, OnlyFile, OnlyNamed, HasText, IsOriginal;
      NamedRefl(T());
      var items :- PlanPatches(targetOk);
      for k := 0 to |items|
        invariant Valid() && OnlyNamed(old(T()), T())
        invariant forall j :: 0 <= j < k ==> IsOriginal(T(), j)
        invariant forall j :: k <= j < |items| ==> Planned(T(), items[j], j)
      {
        ghost var before := T();
        var one := RestoreFile(k, items);
        NamedStep(old(T()), before, T(), k);
        if one.Crashed? { return Crashed; }
      }
      AllAreOriginal();
      return Ok(());
    }

    lemma AllAreOriginal()
      requires forall j :: 0 <= j < |Active(changes)| ==> IsOriginal(T(), j)
      ensures AllOriginal()
    {
      forall c | c in Active(changes)
        ensures c.rel in files && c.rel in clean && files[c.rel] == clean[c.rel] && c.rel !in backups
      {
        var j :| 0 <= j < |Active(changes)| && Active(changes)[j] == c;
        assert IsOriginal(T(), j);
      }
    }

    /** Any runs, complete, failed or stopped: the tree stays sound, and a run that finishes reaches its goal. */
    method Runs(actions: seq<bool>)
      requires Valid()
      modifies this
      ensures Valid()
    {
      for i := 0 to |actions|
        invariant Valid()
      {
        var targetOk: bool := *;
        if actions[i] {
          var applied := ApplyPatches(targetOk);
        } else {
          var restored := RestorePatches(targetOk);
        }
      }
    }

    /** Every file has its patched text. */
    ghost predicate AllPatched()
      reads this
    {
      forall c :: c in Active(changes) ==> Anchored(clean, c) && c.rel in files && files[c.rel] == Goal(clean, c)
    }

    /** Every file is original again, and no backup is left. */
    ghost predicate AllOriginal()
      reads this
    {
      forall c :: c in Active(changes) ==>
          c.rel in files && c.rel in clean && files[c.rel] == clean[c.rel] && c.rel !in backups
    }
  }
}
