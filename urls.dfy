/** Extracting a user id or an artwork id from a pasted URL.

    Every pattern the code uses has the shape `<literal>(\d+)`: a fixed
    text followed by a capture group of decimal digits. `String.match`
    returns the leftmost position where the literal is directly followed by
    at least one digit, and the greedy group takes every digit from there. */
module Urls {
  import opened Basics

  /** The literal of `<literal>(\d+)` occurs at `i` and a digit follows it. */
  predicate MatchesAt(s: string, lit: string, i: nat) {
    i + |lit| < |s| && s[i..i + |lit|] == lit && IsDigit(s[i + |lit|])
  }

  /** The leftmost match at or after `from`. */
  function FindFrom(s: string, lit: string, from: nat): (r: Option<nat>)
    decreases |s| - from
    ensures r.Some? ==> from <= r.value && MatchesAt(s, lit, r.value)
    ensures r.Some? ==> forall i :: from <= i < r.value ==> !MatchesAt(s, lit, i)
    ensures r.None? ==> forall i :: from <= i ==> !MatchesAt(s, lit, i)
  {
    if from >= |s| then None
    else if MatchesAt(s, lit, from) then Some(from)
    else FindFrom(s, lit, from + 1)
  }

  /** The digits of `s` from position `j` up to the first non-digit. */
  function DigitRun(s: string, j: nat): (d: string)
    decreases |s| - j
    ensures j <= |s| ==> j + |d| <= |s| && d == s[j..j + |d|]
    ensures AllDigits(d)
    ensures j + |d| < |s| ==> !IsDigit(s[j + |d|])
  {
    if j < |s| && IsDigit(s[j]) then [s[j]] + DigitRun(s, j + 1) else []
  }

  /** `url.match(/<lit>(\d+)/)` followed by `match ? match[1] : null`. */
  function Capture(s: string, lit: string): Option<Id>
  {
    match FindFrom(s, lit, 0)
    case None => None
    case Some(i) =>
      var d := DigitRun(s, i + |lit|);
      assert d[0] == s[i + |lit|];
      var id: Id := d;
      Some(id)
  }

  /** `i` is the leftmost position where the pattern matches. */
  predicate LeftmostMatch(s: string, lit: string, i: nat) {
    MatchesAt(s, lit, i) && forall j: nat :: j < i ==> !MatchesAt(s, lit, j)
  }

  /** The capture is absent exactly when no position matches; when present
      it is the whole digit run after the leftmost match, and that run is
      followed by the end of the URL or by a non-digit. */
  lemma CaptureFacts(s: string, lit: string)
    ensures Capture(s, lit).None? <==> forall i: nat :: !MatchesAt(s, lit, i)
    ensures Capture(s, lit).Some? ==> exists i: nat :: (LeftmostMatch(s, lit, i)
      && Capture(s, lit).value == DigitRun(s, i + |lit|)
      && i + |lit| + |Capture(s, lit).value| <= |s|
      && Capture(s, lit).value == s[i + |lit|..i + |lit| + |Capture(s, lit).value|])
  {
    var f := FindFrom(s, lit, 0);
    if f.Some? {
      var i := f.value;
      assert LeftmostMatch(s, lit, i);
      assert Capture(s, lit).value == DigitRun(s, i + |lit|);
    }
  }

  /** Patterns tried in order with the matcher `f`: the first one that
      matches wins. */
  function FirstOf(f: string -> Option<Id>, lits: seq<string>): Option<Id>
  {
    if lits == [] then None
    else if f(lits[0]).Some? then f(lits[0])
    else FirstOf(f, lits[1..])
  }

  /** The first match is the match of the first pattern that matches, and
      there is none when no pattern matches. */
  lemma {:induction false} FirstOfFacts(f: string -> Option<Id>, lits: seq<string>)
    ensures FirstOf(f, lits).None? <==> forall k :: 0 <= k < |lits| ==> f(lits[k]).None?
    ensures FirstOf(f, lits).Some? ==>
      exists k :: 0 <= k < |lits| && FirstOf(f, lits) == f(lits[k])
        && forall m :: 0 <= m < k ==> f(lits[m]).None?
  {
    if lits != [] && f(lits[0]).None? {
      var rest := lits[1..];
      FirstOfFacts(f, rest);
      if FirstOf(f, lits).Some? {
        var k :| 0 <= k < |rest| && FirstOf(f, rest) == f(rest[k])
          && forall m :: 0 <= m < k ==> f(rest[m]).None?;
        assert lits[k + 1] == rest[k];
        forall m | 0 <= m < k + 1 ensures f(lits[m]).None? {
          if m > 0 { assert lits[m] == rest[m - 1]; }
        }
      } else {
        forall k | 0 <= k < |lits| ensures f(lits[k]).None? {
          if k > 0 { assert lits[k] == rest[k - 1]; }
        }
      }
    }
  }

  /** A list of patterns tried in order; the first one that matches wins. */
  function FirstCapture(s: string, lits: seq<string>): Option<Id>
  {
    FirstOf(lit => Capture(s, lit), lits)
  }

  /** The result is the capture of the first pattern that matches anywhere,
      and none when no pattern matches. */
  lemma FirstCaptureFacts(s: string, lits: seq<string>)
    ensures FirstCapture(s, lits).None? <==> forall k :: 0 <= k < |lits| ==> Capture(s, lits[k]).None?
    ensures FirstCapture(s, lits).Some? ==>
      exists k :: 0 <= k < |lits| && FirstCapture(s, lits) == Capture(s, lits[k])
        && forall m :: 0 <= m < k ==> Capture(s, lits[m]).None?
  {
    FirstOfFacts(lit => Capture(s, lit), lits);
  }

  /** The first pattern is tried first; the others only when it fails. */
  lemma FirstCaptureStep(s: string, lits: seq<string>)
    ensures FirstCapture(s, lits) == if lits == [] then None
      else if Capture(s, lits[0]).Some? then Capture(s, lits[0]) else FirstCapture(s, lits[1..])
  {
  }

  // ---------------------------------------------------------------------
  // The two backends' single patterns and the web client's pattern lists

  const UserLiteral := "users/"
  const ArtworkLiteral := "artworks/"

  /** `extractUserId` of the mobile server and of the serverless handler. */
  function ServerUserId(url: string): Option<Id> { Capture(url, UserLiteral) }

  /** `extractArtworkId` of the mobile server and of the serverless handler. */
  function ServerArtworkId(url: string): Option<Id> { Capture(url, ArtworkLiteral) }

  const ClientUserLiterals: seq<string> := ["users/", "member.php?id=", "u/"]
  const ClientArtworkLiterals: seq<string> := ["artworks/", "illust_id=", "i/"]

  /** `PixivAPI.extractUserId`: users/, then member.php?id=, then u/. */
  function ClientUserId(url: string): Option<Id> { FirstCapture(url, ClientUserLiterals) }

  /** `PixivAPI.extractArtworkId`: artworks/, then illust_id=, then i/. */
  function ClientArtworkId(url: string): Option<Id> { FirstCapture(url, ClientArtworkLiterals) }

  /** The client falls back to the later patterns only when the earlier ones
      find nothing, and finds nothing only when none of them matches. */
  lemma ClientUserIdOrder(url: string)
    ensures Capture(url, "users/").Some? ==> ClientUserId(url) == Capture(url, "users/")
    ensures Capture(url, "users/").None? && Capture(url, "member.php?id=").Some? ==>
      ClientUserId(url) == Capture(url, "member.php?id=")
    ensures Capture(url, "users/").None? && Capture(url, "member.php?id=").None? ==>
      ClientUserId(url) == Capture(url, "u/")
  {
    var l := ClientUserLiterals;
    assert l[0] == "users/" && l[1..][0] == "member.php?id=" && l[1..][1..][0] == "u/";
    assert l[1..][1..][1..] == [];
    FirstCaptureStep(url, l);
    FirstCaptureStep(url, l[1..]);
    FirstCaptureStep(url, l[1..][1..]);
    FirstCaptureStep(url, l[1..][1..][1..]);
  }

  lemma ClientArtworkIdOrder(url: string)
    ensures Capture(url, "artworks/").Some? ==> ClientArtworkId(url) == Capture(url, "artworks/")
    ensures Capture(url, "artworks/").None? && Capture(url, "illust_id=").Some? ==>
      ClientArtworkId(url) == Capture(url, "illust_id=")
    ensures Capture(url, "artworks/").None? && Capture(url, "illust_id=").None? ==>
      ClientArtworkId(url) == Capture(url, "i/")
  {
    var l := ClientArtworkLiterals;
    assert l[0] == "artworks/" && l[1..][0] == "illust_id=" && l[1..][1..][0] == "i/";
    assert l[1..][1..][1..] == [];
    FirstCaptureStep(url, l);
    FirstCaptureStep(url, l[1..]);
    FirstCaptureStep(url, l[1..][1..]);
    FirstCaptureStep(url, l[1..][1..][1..]);
  }

  /** Whatever the server's single pattern finds, the client finds too. */
  lemma ClientExtendsServer(url: string)
    ensures ServerUserId(url).Some? ==> ClientUserId(url) == ServerUserId(url)
    ensures ServerArtworkId(url).Some? ==> ClientArtworkId(url) == ServerArtworkId(url)
  {
    ClientUserIdOrder(url);
    ClientArtworkIdOrder(url);
  }

  /** A concrete reading: the profile URL of user 42 yields "42". */
  lemma ProfileUrlExample()
    ensures ServerUserId("pixiv.net/users/42").Some? && ServerUserId("pixiv.net/users/42").value == "42"
  {
    var s := "pixiv.net/users/42";
    assert MatchesAt(s, UserLiteral, 10) by {
      assert s[10..16] == UserLiteral;
    }
    forall i | 0 <= i < 10 ensures !MatchesAt(s, UserLiteral, i) {
      assert s[i + 5] != '/' || !IsDigit(s[i + 6]);
    }
    FindFromSkips(s, UserLiteral, 0, 10);
    assert DigitRun(s, 18) == [];
    assert DigitRun(s, 17) == "2";
    assert DigitRun(s, 16) == "42";
  }

  lemma {:induction false} FindFromSkips(s: string, lit: string, from: nat, at: nat)
    requires from <= at && MatchesAt(s, lit, at)
    requires forall i :: from <= i < at ==> !MatchesAt(s, lit, i)
    ensures FindFrom(s, lit, from) == Some(at)
    decreases at - from
  {
    if from < at {
      FindFromSkips(s, lit, from + 1, at);
    }
  }
}
