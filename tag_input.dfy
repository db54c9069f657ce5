/**
 * The tag editor of the writing page (src/app/write/components/TagInput.tsx):
 * a tag list and a text buffer. Enter or ',' turns the trimmed buffer into a
 * tag; a tag's button removes it.
 */
module TagInput {
  import opened Strings
  import opened Seqs

  /** No tag appears twice. */
  predicate Distinct(tags: seq<string>) {
    forall i, j :: 0 <= i < j < |tags| ==> tags[i] != tags[j]
  }

  /** A tag as the editor creates it: non-empty, with no whitespace at either end. */
  predicate IsTrimmedTag(t: string) {
    t != [] && !IsWhitespace(t[0]) && !IsWhitespace(t[|t| - 1])
  }

  /** A key that commits the buffer. */
  predicate IsCommitKey(key: string) {
    key == "Enter" || key == ","
  }

  /** The tag list after committing `input`: the trimmed text is appended unless it is blank or already a tag. */
  function AddTag(tags: seq<string>, input: string): (r: seq<string>)
    ensures IsBlank(input) || Trim(input) in tags ==> r == tags
    ensures !IsBlank(input) && Trim(input) !in tags ==> r == tags + [Trim(input)]
    ensures forall x :: x in r <==> x in tags || (!IsBlank(input) && x == Trim(input))
    ensures r[..|tags|] == tags
    ensures forall i :: |tags| <= i < |r| ==> IsTrimmedTag(r[i])
  {
    var t := Trim(input);
    if t == [] || t in tags then tags else tags + [t]
  }

  /** Committing never creates a duplicate. */
  lemma AddTagKeepsDistinct(tags: seq<string>, input: string)
    requires Distinct(tags)
    ensures Distinct(AddTag(tags, input))
  {
    var r := AddTag(tags, input);
    if r != tags {
      forall i, j | 0 <= i < j < |r|
        ensures r[i] != r[j]
      {
        if j == |tags| {
          assert r[i] == tags[i];
        }
      }
    }
  }

  function IsNot(tag: string): string -> bool {
    t => t != tag
  }

  /** `tags.filter((t) => t !== tag)`. */
  function RemoveTag(tags: seq<string>, tag: string): (r: seq<string>)
    ensures |r| <= |tags|
    ensures tag !in r
  {
    Filter(tags, IsNot(tag))
  }

  /** Removing drops every copy of the tag and nothing else, keeping the order of the rest. */
  lemma RemoveTagExactly(tags: seq<string>, tag: string, x: string)
    ensures x in RemoveTag(tags, tag) <==> x in tags && x != tag
    ensures Subseq(RemoveTag(tags, tag), tags)
    ensures |RemoveTag(tags, tag)| == |tags| - Count(tags, (t: string) => t == tag)
  {
    FilterMembership(tags, IsNot(tag), x);
    FilterIsSubseq(tags, IsNot(tag));
    FilterLengthIsCount(tags, IsNot(tag), (t: string) => t == tag);
  }

  /** Removing a tag the last commit added gives back the list from before the commit. */
  lemma RemoveUndoesAdd(tags: seq<string>, input: string)
    requires !IsBlank(input) && Trim(input) !in tags
    ensures RemoveTag(AddTag(tags, input), Trim(input)) == tags
  {
    var t := Trim(input);
    FilterConcat(tags, [t], IsNot(t));
    FilterKeepsAll(tags, IsNot(t));
  }

  /** The component's state: the tag list it edits and the text being typed. */
  class TagEditor {
    var tags: seq<string>
    var input: string

    constructor (tags: seq<string>)
      ensures this.tags == tags && input == ""
    {
      this.tags := tags;
      input := "";
    }

    /**
     * `handleKeyDown`: a commit key with a non-blank buffer adds the trimmed
     * buffer unless it is already a tag, and clears the buffer; anything else
     * changes nothing.
     */
    method HandleKeyDown(key: string)
      modifies this
      ensures IsCommitKey(key) && !IsBlank(old(input)) ==> tags == AddTag(old(tags), old(input)) && input == ""
      ensures !(IsCommitKey(key) && !IsBlank(old(input))) ==> tags == old(tags) && input == old(input)
      ensures Distinct(old(tags)) ==> Distinct(tags)
    {
      var t := Trim(input);
      if IsCommitKey(key) && t != [] {
        if Distinct(tags) {
          AddTagKeepsDistinct(tags, input);
        }
        if t !in tags {
          tags := tags + [t];
        }
        input := "";
      }
    }

    /** `removeTag`: the list without the given tag; the buffer is kept. */
    method Remove(tag: string)
      modifies this`tags
      ensures tags == RemoveTag(old(tags), tag)
      ensures Distinct(old(tags)) ==> Distinct(tags)
    {
      if Distinct(tags) {
        RemoveKeepsDistinct(tags, tag);
      }
      tags := RemoveTag(tags, tag);
    }
  }

  /** Removing keeps a duplicate-free list duplicate-free. */
  lemma {:induction false} RemoveKeepsDistinct(tags: seq<string>, tag: string)
    requires Distinct(tags)
    ensures Distinct(RemoveTag(tags, tag))
  {
    if tags != [] {
      RemoveKeepsDistinct(tags[1..], tag);
      FilterMembership(tags[1..], IsNot(tag), tags[0]);
      var rest := RemoveTag(tags[1..], tag);
      assert tags[0] !in rest by {
        assert forall j :: 1 <= j < |tags| ==> tags[j] != tags[0];
        assert tags[0] !in tags[1..];
      }
    }
  }
}
