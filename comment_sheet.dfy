/** The video comment sheet: liking comments and posting a new one. */
module CommentSheet {
  import opened Wrappers

  /** `isLiked` is optional; an absent flag reads as not liked. */
  datatype Comment = Comment(id: string, username: string, text: string, likes: int, isLiked: Option<bool>)

  predicate Liked(c: Comment)
  {
    c.isLiked == Some(true)
  }

  /** The characters `String.prototype.trim` strips: ECMAScript WhiteSpace and LineTerminator. */
  const TrimmedChars: set<char> :=
    {'\U{0009}', '\U{000B}', '\U{000C}', '\U{0020}', '\U{00A0}', '\U{FEFF}', '\U{1680}',
     '\U{2000}', '\U{2001}', '\U{2002}', '\U{2003}', '\U{2004}', '\U{2005}', '\U{2006}',
     '\U{2007}', '\U{2008}', '\U{2009}', '\U{200A}', '\U{202F}', '\U{205F}', '\U{3000}',
     '\U{000A}', '\U{000D}', '\U{2028}', '\U{2029}'}

  predicate IsWhitespace(c: char)
  {
    c in TrimmedChars
  }

  function TrimStart(s: string): string
  {
    if s != [] && IsWhitespace(s[0]) then TrimStart(s[1..]) else s
  }

  function TrimEnd(s: string): string
  {
    if s != [] && IsWhitespace(s[|s| - 1]) then TrimEnd(s[..|s| - 1]) else s
  }

  function Trim(s: string): string
  {
    TrimEnd(TrimStart(s))
  }

  /** How many whitespace characters `s` starts with. */
  function LeadingBlanks(s: string): (n: nat)
    ensures n <= |s|
  {
    if s != [] && IsWhitespace(s[0]) then 1 + LeadingBlanks(s[1..]) else 0
  }

  /** How many whitespace characters `s` ends with. */
  function TrailingBlanks(s: string): (n: nat)
    ensures n <= |s|
  {
    if s != [] && IsWhitespace(s[|s| - 1]) then 1 + TrailingBlanks(s[..|s| - 1]) else 0
  }

  lemma {:induction false} TrimStartSlice(s: string)
    ensures TrimStart(s) == s[LeadingBlanks(s)..]
    ensures forall k :: 0 <= k < LeadingBlanks(s) ==> IsWhitespace(s[k])
    ensures TrimStart(s) != [] ==> !IsWhitespace(TrimStart(s)[0])
    decreases |s|
  {
    if s != [] && IsWhitespace(s[0]) {
      TrimStartSlice(s[1..]);
      assert s[1..][LeadingBlanks(s[1..])..] == s[LeadingBlanks(s)..];
      forall k | 0 <= k < LeadingBlanks(s) ensures IsWhitespace(s[k]) {
        if k > 0 { assert s[k] == s[1..][k - 1]; }
      }
    }
  }

  lemma {:induction false} TrimEndSlice(s: string)
    ensures TrimEnd(s) == s[..|s| - TrailingBlanks(s)]
    ensures forall k :: |s| - TrailingBlanks(s) <= k < |s| ==> IsWhitespace(s[k])
    ensures TrimEnd(s) != [] ==> !IsWhitespace(TrimEnd(s)[|TrimEnd(s)| - 1])
    decreases |s|
  {
    if s != [] && IsWhitespace(s[|s| - 1]) {
      var u := s[..|s| - 1];
      TrimEndSlice(u);
      assert u[..|u| - TrailingBlanks(u)] == s[..|s| - TrailingBlanks(s)];
      forall k | |s| - TrailingBlanks(s) <= k < |s| ensures IsWhitespace(s[k]) {
        if k < |u| { assert s[k] == u[k]; }
      }
    }
  }

  /** Trimming is trimming the end of the slice after the leading whitespace. */
  lemma TrimSlices(s: string)
    ensures LeadingBlanks(s) <= |s|
    ensures Trim(s) == TrimEnd(s[LeadingBlanks(s)..])
    ensures Trim(s) != [] ==> !IsWhitespace(Trim(s)[0])
  {
    TrimStartSlice(s);
    var t := s[LeadingBlanks(s)..];
    TrimEndSlice(t);
    if Trim(s) != [] {
      assert Trim(s)[0] == t[0];
    }
  }

  /** Trimming the end of a suffix of s, stated in positions of s. */
  lemma TrimEndOfSuffix(s: string, i: nat)
    requires i <= |s|
    ensures i <= |s| - TrailingBlanks(s[i..])
    ensures TrimEnd(s[i..]) == s[i..|s| - TrailingBlanks(s[i..])]
    ensures forall k :: |s| - TrailingBlanks(s[i..]) <= k < |s| ==> IsWhitespace(s[k])
    ensures TrimEnd(s[i..]) != [] ==> !IsWhitespace(TrimEnd(s[i..])[|TrimEnd(s[i..])| - 1])
  {
    var t := s[i..];
    TrimEndSlice(t);
    var j := |s| - TrailingBlanks(t);
    assert t[..|t| - TrailingBlanks(t)] == s[i..j];
    forall k | j <= k < |s| ensures IsWhitespace(s[k]) {
      assert s[k] == t[k - i];
    }
  }

  /**
   * Trimming takes the contiguous slice of the input between its leading and
   * trailing whitespace, and leaves no whitespace at either end of the result.
   */
  lemma TrimCorrect(s: string)
    ensures var i := LeadingBlanks(s); var j := |s| - TrailingBlanks(s[i..]);
      i <= j && Trim(s) == s[i..j] &&
      (forall k :: 0 <= k < i ==> IsWhitespace(s[k])) && (forall k :: j <= k < |s| ==> IsWhitespace(s[k]))
    ensures Trim(s) != [] ==> !IsWhitespace(Trim(s)[0]) && !IsWhitespace(Trim(s)[|Trim(s)| - 1])
  {
    TrimStartSlice(s);
    TrimSlices(s);
    TrimEndOfSuffix(s, LeadingBlanks(s));
  }

  /** The trimmed text is empty exactly when the input is all whitespace. */
  lemma {:induction false} TrimEmptyIffBlank(s: string)
    ensures Trim(s) == "" <==> forall k :: 0 <= k < |s| ==> IsWhitespace(s[k])
  {
    TrimCorrect(s);
  }

  /** `handleLikeComment`'s map: flip the flag of the comment with that id and step its count. */
  function WithLikeToggled(comments: seq<Comment>, commentId: string): seq<Comment>
  {
    seq(|comments|, k requires 0 <= k < |comments| =>
      var c := comments[k];
      if c.id == commentId then c.(likes := if Liked(c) then c.likes - 1 else c.likes + 1, isLiked := Some(!Liked(c)))
      else c)
  }

  /**
   * Liking keeps the list's length and order; a comment with that id flips
   * its flag and moves its count by one in the matching direction; every other
   * comment is unchanged.
   */
  lemma LikeToggleEffect(comments: seq<Comment>, commentId: string)
    ensures |WithLikeToggled(comments, commentId)| == |comments|
    ensures forall k :: 0 <= k < |comments| ==>
      var c, c' := comments[k], WithLikeToggled(comments, commentId)[k];
      if c.id == commentId then
        c'.id == c.id && c'.username == c.username && c'.text == c.text &&
        (Liked(c') <==> !Liked(c)) && c'.isLiked.Some? &&
        c'.likes == (if Liked(c) then c.likes - 1 else c.likes + 1)
      else c' == c
  {
  }

  /**
   * Liking the same comment twice restores every like count and every
   * liked state; only an absent flag becomes an explicit false.
   */
  lemma LikeTwiceRestores(comments: seq<Comment>, commentId: string)
    ensures var twice := WithLikeToggled(WithLikeToggled(comments, commentId), commentId);
      |twice| == |comments| &&
      forall k :: 0 <= k < |comments| ==>
        twice[k].likes == comments[k].likes && (Liked(twice[k]) <==> Liked(comments[k])) &&
        twice[k] == comments[k].(isLiked := twice[k].isLiked) &&
        (comments[k].id == commentId ==> twice[k].isLiked == Some(Liked(comments[k])))
  {
  }

  const CurrentUser := "user123"

  /** The comment a successful post puts at the head of the list. */
  function PostedComment(id: string, input: string): Comment
  {
    Comment(id, CurrentUser, Trim(input), 0, Some(false))
  }

  /** The three comments the sheet opens with. */
  const InitialComments: seq<Comment> := [
    Comment("1", "sarah_dance", "This is amazing! 🔥", 234, None),
    Comment("2", "dance_lover", "Great moves! Keep it up 👏", 156, None),
    Comment("3", "pro_dancer", "The transition at 0:15 is everything ✨", 89, None)
  ]

  /** What the text input accepts (`maxLength`). */
  const MaxCommentLength := 200

  class CommentSheetState {
    var comments: seq<Comment>
    var newComment: string

    ghost predicate Valid()
      reads this
    {
      |newComment| <= MaxCommentLength
    }

    constructor ()
      ensures Valid()
      ensures comments == InitialComments && newComment == ""
    {
      comments := InitialComments;
      newComment := "";
    }

    /** The input's change handler; the input never hands over more than its maximum length. */
    method SetNewComment(text: string)
      requires |text| <= MaxCommentLength
      modifies this`newComment
      ensures Valid() && newComment == text
    {
      newComment := text;
    }

    /** The send button is disabled while the trimmed input is empty. */
    function SendDisabled(): (r: bool)
      reads this
      ensures r <==> forall k :: 0 <= k < |newComment| ==> IsWhitespace(newComment[k])
    {
      TrimEmptyIffBlank(newComment);
      Trim(newComment) == ""
    }

    method HandleLikeComment(commentId: string)
      modifies this`comments
      ensures comments == WithLikeToggled(old(comments), commentId)
    {
      comments := WithLikeToggled(comments, commentId);
    }

    /**
     * `handlePostComment`: a blank input changes nothing; otherwise the trimmed
     * text is prepended as a fresh comment and the input is cleared.
     */
    method HandlePostComment(id: string) returns (posted: bool)
      requires Valid()
      modifies this
      ensures Valid()
      ensures posted <==> !old(SendDisabled())
      ensures posted ==> comments == [PostedComment(id, old(newComment))] + old(comments) && newComment == ""
      ensures posted ==> |comments[0].text| <= MaxCommentLength
      ensures !posted ==> comments == old(comments) && newComment == old(newComment)
    {
      var text := Trim(newComment);
      posted := text != "";
      if posted {
        TrimCorrect(newComment);
        comments := [PostedComment(id, newComment)] + comments;
        newComment := "";
      }
    }
  }
}
