/** Suggestions for the song-name argument of `/play`: the regular files of
    the music folder whose names contain the typed text, ignoring ASCII
    case, in directory order and at most 25 of them. */
module Autocomplete {
  import opened Wrappers
  import opened Text
  import opened Files

  /** The most choices a chat client accepts for one argument. */
  const MaxChoices: nat := 25

  /** The elements of `s` that `keep` accepts, in their order in `s`. */
  function Filter<T>(s: seq<T>, keep: T -> bool): seq<T>
    decreases |s|
  {
    if s == [] then [] else (if keep(s[0]) then [s[0]] else []) + Filter(s[1..], keep)
  }

  /** Filtering keeps exactly the accepted elements. */
  lemma {:induction false} FilterMembers<T>(s: seq<T>, keep: T -> bool)
    ensures forall x :: x in Filter(s, keep) <==> x in s && keep(x)
    decreases |s|
  {
    if s != [] {
      FilterMembers(s[1..], keep);
      assert s == [s[0]] + s[1..];
    }
  }

  /** Filtering respects order: what comes from an earlier stretch of the
      input comes first in the output. */
  lemma {:induction false} FilterAppend<T>(a: seq<T>, b: seq<T>, keep: T -> bool)
    ensures Filter(a + b, keep) == Filter(a, keep) + Filter(b, keep)
    decreases |a|
  {
    if a == [] {
      assert a + b == b;
    } else {
      var head := if keep(a[0]) then [a[0]] else [];
      assert (a + b)[0] == a[0];
      assert (a + b)[1..] == a[1..] + b;
      assert Filter(a + b, keep) == head + Filter(a[1..] + b, keep);
      assert Filter(a, keep) == head + Filter(a[1..], keep);
      FilterAppend(a[1..], b, keep);
      assert head + (Filter(a[1..], keep) + Filter(b, keep)) == (head + Filter(a[1..], keep)) + Filter(b, keep);
    }
  }

  /** A directory entry is offered only when it is a regular file. */
  function IsSong(disk: Disk): string -> bool
  {
    name => IsFile(disk, PathJoin(MusicFolder, name))
  }

  /** `current.lower() in name.lower()`. */
  predicate Matches(current: string, name: string)
  {
    Contains(LowerString(name), LowerString(current))
  }

  function MatchesInput(current: string): string -> bool
  {
    name => Matches(current, name)
  }

  /** Every regular file of the listing that matches, in listing order. */
  function AllMatches(current: string, names: seq<string>, disk: Disk): seq<string>
  {
    Filter(Filter(names, IsSong(disk)), MatchesInput(current))
  }

  /** Python's `s[:n]`: the first `n` elements, or all of them when there
      are fewer. */
  function Take<T>(s: seq<T>, n: nat): seq<T>
  {
    if |s| <= n then s else s[..n]
  }

  lemma TakeIsPrefix<T>(s: seq<T>, n: nat)
    ensures var r := Take(s, n);
      |r| <= |s| && |r| <= n && r == s[..|r|] && (|r| < n ==> r == s)
  {
    if |s| <= n {
      assert s[..|s|] == s;
    }
  }

  lemma TakeOfAppend<T>(a: seq<T>, b: seq<T>, n: nat)
    requires n <= |a|
    ensures Take(a + b, n) == Take(a, n)
  {
    assert (a + b)[..n] == a[..n];
  }

  /** The choices offered for the text `current`, given the folder listing
      (`None` when listing the folder fails, which yields no choices). */
  function Suggestions(current: string, listing: Option<seq<string>>, disk: Disk): (r: seq<string>)
    ensures |r| <= MaxChoices
    ensures listing.None? ==> r == []
  {
    match listing
    case None => []
    case Some(names) =>
      Take(AllMatches(current, names, disk), MaxChoices)
  }

  lemma PrefixMembers<T>(s: seq<T>, n: nat)
    requires n <= |s|
    ensures forall x :: x in s[..n] ==> x in s
  {
    assert s == s[..n] + s[n..];
  }

  /** A name is a match exactly when it is a regular file of the listing
      whose name contains the typed text. */
  lemma AllMatchesMembers(current: string, names: seq<string>, disk: Disk)
    ensures forall f :: f in AllMatches(current, names, disk) <==>
              f in names && IsFile(disk, PathJoin(MusicFolder, f)) && Matches(current, f)
  {
    FilterMembers(names, IsSong(disk));
    FilterMembers(Filter(names, IsSong(disk)), MatchesInput(current));
  }

  /** The choices are the leading matches, as many as fit. */
  lemma SuggestionsArePrefix(current: string, names: seq<string>, disk: Disk)
    ensures var r := Suggestions(current, Some(names), disk);
      var matches := AllMatches(current, names, disk);
      |r| <= |matches| && r == matches[..|r|] && (|r| < MaxChoices ==> r == matches)
  {
    TakeIsPrefix(AllMatches(current, names, disk), MaxChoices);
  }

  /** Each choice is a regular file of the listing whose name contains the
      typed text, ignoring case. */
  lemma SuggestionsSound(current: string, names: seq<string>, disk: Disk)
    ensures forall f :: f in Suggestions(current, Some(names), disk) ==>
              f in names && IsFile(disk, PathJoin(MusicFolder, f)) && Matches(current, f)
  {
    var r := Suggestions(current, Some(names), disk);
    var matches := AllMatches(current, names, disk);
    AllMatchesMembers(current, names, disk);
    SuggestionsArePrefix(current, names, disk);
    PrefixMembers(matches, |r|);
  }

  /** When fewer than 25 choices are offered, none was left out: every
      matching regular file of the listing is among them. */
  lemma SuggestionsComplete(current: string, names: seq<string>, disk: Disk)
    requires |Suggestions(current, Some(names), disk)| < MaxChoices
    ensures forall f :: f in names && IsFile(disk, PathJoin(MusicFolder, f)) && Matches(current, f) ==>
              f in Suggestions(current, Some(names), disk)
  {
    AllMatchesMembers(current, names, disk);
    SuggestionsArePrefix(current, names, disk);
  }

  /** The choices are the first matches in directory order: once the
      beginning of a listing already holds 25 matches, nothing after it
      changes the choices. */
  lemma SuggestionsPreferEarlier(current: string, front: seq<string>, back: seq<string>, disk: Disk)
    requires |AllMatches(current, front, disk)| >= MaxChoices
    ensures Suggestions(current, Some(front + back), disk) == Suggestions(current, Some(front), disk)
  {
    var early := AllMatches(current, front, disk);
    var late := Filter(Filter(back, IsSong(disk)), MatchesInput(current));
    FilterAppend(front, back, IsSong(disk));
    FilterAppend(Filter(front, IsSong(disk)), Filter(back, IsSong(disk)), MatchesInput(current));
    assert AllMatches(current, front + back, disk) == early + late;
    TakeOfAppend(early, late, MaxChoices);
  }

  /** Matching ignores ASCII case on both sides. */
  lemma MatchingIgnoresCase(current: string, name: string)
    ensures Matches(current, name) <==> Matches(LowerString(current), LowerString(name))
  {
    LowerStringIdempotent(current);
    LowerStringIdempotent(name);
  }
}
