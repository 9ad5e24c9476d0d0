/**
 * The comment panel of src/components/custom/video-comments.tsx: the submit
 * guard (JavaScript `trim`), the submit handler with its try/finally, the
 * newest-first copy of the comment list and the count label.
 */
module VideoComments {
  import opened Wrappers

  /** A comment as the catalog page hands it to the panel; `createdAt` is a timestamp. */
  datatype Comment = Comment(
    id: string,
    announcementId: string,
    userId: string,
    userName: string,
    userAvatar: Option<string>,
    content: string,
    videoUrl: Option<string>,
    isSellerResponse: bool,
    createdAt: int,
    parentCommentId: Option<string>)

  // ---------------------------------------------------------------------------
  // Whitespace and trim

  /**
   * The characters `String.prototype.trim` removes: ECMAScript WhiteSpace
   * (tab, vertical tab, form feed, space, no-break space, byte-order mark and
   * the Unicode space separators) and LineTerminator (line feed, carriage
   * return, line and paragraph separators).
   */
  predicate IsWhitespace(c: char)
  {
    var n := c as int;
    (0x09 <= n <= 0x0D) || n == 0x20 || n == 0xA0 || n == 0x1680
    || (0x2000 <= n <= 0x200A) || n == 0x2028 || n == 0x2029 || n == 0x202F
    || n == 0x205F || n == 0x3000 || n == 0xFEFF
  }

  predicate AllWhitespace(s: string)
  {
    forall i :: 0 <= i < |s| ==> IsWhitespace(s[i])
  }

  /** Drops leading whitespace: the result is the suffix after a whitespace-only prefix. */
  function TrimStart(s: string): (r: string)
    ensures |r| <= |s| && r == s[|s| - |r|..]
    ensures AllWhitespace(s[..|s| - |r|])
    ensures r != [] ==> !IsWhitespace(r[0])
  {
    if s != [] && IsWhitespace(s[0]) then
      var tail := s[1..];
      var r := TrimStart(tail);
      assert tail[|tail| - |r|..] == s[|s| - |r|..];
      assert s[..|s| - |r|] == [s[0]] + tail[..|tail| - |r|];
      r
    else
      s
  }

  /** Drops trailing whitespace: the result is the prefix before a whitespace-only suffix. */
  function TrimEnd(s: string): (r: string)
    ensures |r| <= |s| && r == s[..|r|]
    ensures AllWhitespace(s[|r|..])
    ensures r != [] ==> !IsWhitespace(r[|r| - 1])
  {
    if s != [] && IsWhitespace(s[|s| - 1]) then
      var init := s[..|s| - 1];
      var r := TrimEnd(init);
      assert init[..|r|] == s[..|r|];
      assert s[|r|..] == init[|r|..] + [s[|s| - 1]];
      r
    else
      s
  }

  /** `String.prototype.trim`: a slice of `s` that neither starts nor ends with whitespace. */
  function Trim(s: string): (r: string)
    ensures |r| <= |s|
    ensures r != [] ==> !IsWhitespace(r[0]) && !IsWhitespace(r[|r| - 1])
  {
    var t := TrimStart(s);
    var r := TrimEnd(t);
    assert r != [] ==> r[0] == t[0];
    r
  }

  /** Trimming leaves nothing exactly when the text is whitespace only (both directions). */
  lemma TrimEmptyIff(s: string)
    ensures Trim(s) == "" <==> AllWhitespace(s)
  {
  }

  /** The Send button's `disabled` expression. */
  function SendDisabled(isSubmitting: bool, newComment: string): (disabled: bool)
    ensures disabled <==> isSubmitting || AllWhitespace(newComment)
  {
    TrimEmptyIff(newComment);
    isSubmitting || Trim(newComment) == ""
  }

  // ---------------------------------------------------------------------------
  // Submitting

  /** One call to the `onAddComment` prop: the text, and the video reference passed with it. */
  datatype AddCommentCall = AddCommentCall(content: string, videoUrl: Option<string>)

  /** The panel's two pieces of state, and the calls it has made to `onAddComment`. */
  class CommentForm {
    var newComment: string
    var isSubmitting: bool
    var calls: seq<AddCommentCall>

    constructor ()
      ensures newComment == "" && !isSubmitting && calls == []
    {
      newComment := "";
      isSubmitting := false;
      calls := [];
    }

    /** The text area's `onChange`. */
    method SetNewComment(text: string)
      modifies this`newComment
      ensures newComment == text
    {
      newComment := text;
    }

    /**
     * `handleSubmit`. Whitespace-only input is ignored. Otherwise the untrimmed
     * text is passed to `onAddComment` with no video; the input is cleared only
     * when that call returns, and `isSubmitting` is reset in `finally`, so a
     * throwing call leaves the text in place and propagates (`raised`).
     */
    method HandleSubmit(onAddComment: CallOutcome) returns (raised: bool)
      modifies this
      ensures AllWhitespace(old(newComment)) ==>
        && newComment == old(newComment) && isSubmitting == old(isSubmitting)
        && calls == old(calls) && !raised
      ensures !AllWhitespace(old(newComment)) ==>
        && calls == old(calls) + [AddCommentCall(old(newComment), None)]
        && !isSubmitting
        && newComment == (if onAddComment == Succeeds then "" else old(newComment))
        && raised == (onAddComment == Throws)
    {
      TrimEmptyIff(newComment);
      if Trim(newComment) == "" {
        return false;
      }
      isSubmitting := true;
      calls := calls + [AddCommentCall(newComment, None)];
      if onAddComment == Succeeds {
        newComment := "";
      }
      isSubmitting := false;
      raised := onAddComment == Throws;
    }
  }

  // ---------------------------------------------------------------------------
  // Newest-first ordering

  /** Every comment is at least as recent as every comment after it. */
  ghost predicate NewestFirst(s: seq<Comment>)
  {
    forall i, j :: 0 <= i < j < |s| ==> s[i].createdAt >= s[j].createdAt
  }

  /** The comments of `s` created at time `t`, in their order in `s`. */
  function CreatedAt(s: seq<Comment>, t: int): (r: seq<Comment>)
    ensures |r| <= |s|
  {
    if s == [] then []
    else (if s[0].createdAt == t then [s[0]] else []) + CreatedAt(s[1..], t)
  }

  /**
   * Places `c` before the first comment that is not newer than it. `c` goes in
   * front of comments with the same timestamp, which is what a stable sort
   * needs when `c` came first in the input.
   */
  function InsertNewestFirst(c: Comment, sorted: seq<Comment>): (r: seq<Comment>)
    ensures multiset(r) == multiset(sorted) + multiset{c}
    ensures r[0] == c || (sorted != [] && r[0] == sorted[0])
  {
    if sorted == [] || c.createdAt >= sorted[0].createdAt then
      [c] + sorted
    else
      assert sorted == [sorted[0]] + sorted[1..];
      [sorted[0]] + InsertNewestFirst(c, sorted[1..])
  }

  /** Inserting into a newest-first list keeps it newest-first. */
  lemma {:induction false} InsertKeepsNewestFirst(c: Comment, sorted: seq<Comment>)
    requires NewestFirst(sorted)
    ensures NewestFirst(InsertNewestFirst(c, sorted))
  {
    if sorted == [] || c.createdAt >= sorted[0].createdAt {
      var r := [c] + sorted;
      assert forall j :: 0 < j < |r| ==> r[j] == sorted[j - 1];
    } else {
      var tail := sorted[1..];
      InsertKeepsNewestFirst(c, tail);
      var rest := InsertNewestFirst(c, tail);
      assert rest[0].createdAt <= sorted[0].createdAt;
      var r := [sorted[0]] + rest;
      assert forall j :: 0 < j < |r| ==> r[j] == rest[j - 1];
      assert forall j :: 0 <= j < |rest| ==> rest[0].createdAt >= rest[j].createdAt;
    }
  }

  /**
   * `sortedComments`: a copy of the list ordered by `createdAt`, newest first.
   * `Array.prototype.sort` is stable, so comments with equal timestamps keep
   * their input order; insertion from the back reproduces that.
   */
  function SortedComments(comments: seq<Comment>): (r: seq<Comment>)
    ensures multiset(r) == multiset(comments)
    ensures NewestFirst(r)
  {
    if comments == [] then []
    else
      var rest := SortedComments(comments[1..]);
      assert comments == [comments[0]] + comments[1..];
      InsertKeepsNewestFirst(comments[0], rest);
      InsertNewestFirst(comments[0], rest)
  }

  /** Inserting `c` adds it in front of the comments that share its timestamp and touches no other group. */
  lemma {:induction false} InsertKeepsGroups(c: Comment, sorted: seq<Comment>, t: int)
    ensures CreatedAt(InsertNewestFirst(c, sorted), t)
         == (if c.createdAt == t then [c] else []) + CreatedAt(sorted, t)
  {
    if sorted == [] || c.createdAt >= sorted[0].createdAt {
      var r := [c] + sorted;
      assert r[0] == c && r[1..] == sorted;
    } else {
      var tail := sorted[1..];
      var rest := InsertNewestFirst(c, tail);
      InsertKeepsGroups(c, tail, t);
      var r := [sorted[0]] + rest;
      assert r[0] == sorted[0] && r[1..] == rest;
      var head := if sorted[0].createdAt == t then [sorted[0]] else [];
      var mine := if c.createdAt == t then [c] else [];
      assert CreatedAt(r, t) == head + (mine + CreatedAt(tail, t));
      assert CreatedAt(sorted, t) == head + CreatedAt(tail, t);
      assert head == [] || mine == [];
    }
  }

  /** Stability: for every timestamp, the comments created then appear in the same order as in the input. */
  lemma {:induction false} SortIsStable(comments: seq<Comment>, t: int)
    ensures CreatedAt(SortedComments(comments), t) == CreatedAt(comments, t)
  {
    if comments != [] {
      SortIsStable(comments[1..], t);
      InsertKeepsGroups(comments[0], SortedComments(comments[1..]), t);
    }
  }

  /** Sorting a list that is already newest-first returns it unchanged. */
  lemma {:induction false} SortKeepsSorted(comments: seq<Comment>)
    requires NewestFirst(comments)
    ensures SortedComments(comments) == comments
  {
    if comments != [] {
      var tail := comments[1..];
      assert NewestFirst(tail);
      SortKeepsSorted(tail);
      assert tail == [] || comments[0].createdAt >= tail[0].createdAt;
      assert [comments[0]] + tail == comments;
    }
  }

  /** Re-sorting the displayed list changes nothing. */
  lemma SortIdempotent(comments: seq<Comment>)
    ensures SortedComments(SortedComments(comments)) == SortedComments(comments)
  {
    SortKeepsSorted(SortedComments(comments));
  }

  /** The noun of the count heading: singular exactly for one comment. */
  function CountNoun(count: nat): (noun: string)
    ensures noun == "comentário" <==> count == 1
    ensures noun == "comentários" <==> count != 1
  {
    if count == 1 then "comentário" else "comentários"
  }
}
