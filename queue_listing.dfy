/** The text of the `/queue` command: the pending songs numbered from 1 in
    queue order, one per line under a title, cut short when the message
    would be too long for a chat message. */
module QueueListing {
  import opened Text

  /** Longest listing sent whole. */
  const Limit: nat := 1900
  const Title: string := "**播放列表:**"
  const EmptyText: string := "播放列表是空的！"
  /** Appended after the first `Limit` characters of a listing that is too long. */
  const Overflow: string := "\n... (列表过长)"

  /** One line of the listing: the song's position and its file name. */
  function Entry(number: nat, path: string): string
  {
    NatToString(number) + ". " + Basename(path)
  }

  /** The numbered lines for `paths`, as `enumerate` yields them: position
      k is shown as number k + 1. */
  function Entries(paths: seq<string>): seq<string>
  {
    seq(|paths|, k requires 0 <= k < |paths| => Entry(k + 1, paths[k]))
  }

  /** The full listing, before any truncation. */
  function Listing(paths: seq<string>): string
  {
    Title + "\n" + JoinLines(Entries(paths))
  }

  /** The message `/queue` sends for a queue holding `paths`. */
  function QueueText(paths: seq<string>): (r: string)
    ensures paths == [] ==> r == EmptyText
    ensures paths != [] ==> StartsWith(r, Title + "\n") && |r| <= Limit + |Overflow|
    ensures paths != [] && |Listing(paths)| <= Limit ==> r == Listing(paths)
    ensures paths != [] && Limit < |Listing(paths)| ==>
              |r| == Limit + |Overflow| && StartsWith(Listing(paths), r[..Limit]) && r[Limit..] == Overflow
  {
    if paths == [] then EmptyText
    else
      var message := Listing(paths);
      if |message| > Limit then message[..Limit] + Overflow else message
  }

  lemma EntryHasNoNewline(number: nat, path: string)
    requires '\n' !in Basename(path)
    ensures '\n' !in Entry(number, path)
  {
    assert '\n' !in NatToString(number);
    assert '\n' !in ". ";
  }

  lemma LineHasNoNewline(paths: seq<string>, k: nat)
    requires k < |paths| && '\n' !in Basename(paths[k])
    ensures '\n' !in Entries(paths)[k]
  {
    EntryHasNoNewline(k + 1, paths[k]);
  }

  /** Read line by line, the untruncated listing is the title followed by
      the songs numbered 1..n in queue order (when no file name holds a
      newline). */
  lemma ListingLines(paths: seq<string>)
    requires paths != []
    requires forall k :: 0 <= k < |paths| ==> '\n' !in Basename(paths[k])
    ensures SplitLines(Listing(paths)) == [Title] + Entries(paths)
  {
    var entries := Entries(paths);
    forall k | 0 <= k < |entries|
      ensures '\n' !in entries[k]
    {
      LineHasNoNewline(paths, k);
    }
    SplitJoinLines(entries);
    SplitAfterLine(Title, JoinLines(entries));
  }
}
