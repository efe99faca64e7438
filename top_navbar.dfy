/**
 * The top navigation bar: the avatar initials of the signed-in official and
 * what signing out does to the bar's session state.
 */
module TopNavbar {
  import opened Wrappers
  import opened Text
  import opened Officials

  // ---------------------------------------------------------------- initials

  /** `s.split(' ')`: only the space character separates, and empty pieces are kept. */
  function Split(s: string): (r: seq<string>)
    ensures |r| >= 1
    decreases |s|
  {
    if |s| == 0 then [""]
    else if s[0] == ' ' then [""] + Split(s[1..])
    else
      var rest := Split(s[1..]);
      [[s[0]] + rest[0]] + rest[1..]
  }

  /** `pieces.join(sep)` */
  function Join(pieces: seq<string>, sep: char): string
    decreases |pieces|
  {
    if |pieces| == 0 then ""
    else if |pieces| == 1 then pieces[0]
    else pieces[0] + [sep] + Join(pieces[1..], sep)
  }

  /** Splitting on spaces yields space-free pieces that join back into the original string. */
  lemma {:induction false} SplitJoinRoundTrip(s: string)
    ensures Join(Split(s), ' ') == s
    ensures forall k :: 0 <= k < |Split(s)| ==> ' ' !in Split(s)[k]
    decreases |s|
  {
    if |s| > 0 {
      SplitJoinRoundTrip(s[1..]);
      var rest := Split(s[1..]);
      if s[0] == ' ' {
        assert Split(s) == [""] + rest;
        assert Split(s)[1..] == rest;
        assert s == [' '] + s[1..];
      } else {
        var first := [s[0]] + rest[0];
        assert Split(s) == [first] + rest[1..];
        if |rest| == 1 {
          assert s == [s[0]] + s[1..];
        } else {
          assert Split(s)[1..] == rest[1..];
          assert Join(rest, ' ') == rest[0] + [' '] + Join(rest[1..], ' ');
          assert Join(Split(s), ' ') == first + [' '] + Join(rest[1..], ' ');
          assert s == [s[0]] + s[1..];
        }
        forall k | 0 <= k < |Split(s)| ensures ' ' !in Split(s)[k] {
          if k > 0 {
            assert Split(s)[k] == rest[k];
          }
        }
      }
    }
  }

  /** `pieces.map(n => n[0]).join('')`: an empty piece gives `undefined`, which joins as nothing. */
  function Heads(pieces: seq<string>): string
    decreases |pieces|
  {
    if pieces == [] then ""
    else (if pieces[0] == "" then "" else [pieces[0][0]]) + Heads(pieces[1..])
  }

  /** `getInitials`: upper-cased first letters of the space-separated pieces, at most two. */
  function GetInitials(name: string): (r: string)
    ensures |r| <= 2
  {
    var all := Upper(Heads(Split(name)));
    if |all| <= 2 then all else all[..2]
  }

  /**
   * The characters that begin a word: a non-space at the start (when
   * `atBoundary`) or right after a space.
   */
  function WordStarts(s: string, atBoundary: bool): string
    decreases |s|
  {
    if s == [] then ""
    else if s[0] == ' ' then WordStarts(s[1..], true)
    else (if atBoundary then [s[0]] else "") + WordStarts(s[1..], false)
  }

  /** The first characters of the split pieces are exactly the word-start characters. */
  lemma {:induction false} HeadsAreWordStarts(s: string)
    ensures Heads(Split(s)) == WordStarts(s, true)
    ensures Heads(Split(s)[1..]) == WordStarts(s, false)
    decreases |s|
  {
    if |s| > 0 {
      HeadsAreWordStarts(s[1..]);
      var rest := Split(s[1..]);
      if s[0] == ' ' {
        assert Split(s) == [""] + rest;
        assert Split(s)[1..] == rest;
      } else {
        var first := [s[0]] + rest[0];
        assert Split(s) == [first] + rest[1..];
        assert Split(s)[1..] == rest[1..];
      }
    }
  }

  /** `getInitials` is the first two word-start characters, upper-cased. */
  lemma InitialsAreWordStarts(name: string)
    ensures var starts := Upper(WordStarts(name, true));
      GetInitials(name) == if |starts| <= 2 then starts else starts[..2]
  {
    HeadsAreWordStarts(name);
  }

  /** A space before the rest of a name starts a new word. */
  lemma {:induction false} WordStartsSpaceJoin(a: string, b: string, atBoundary: bool)
    ensures WordStarts(a + [' '] + b, atBoundary) == WordStarts(a, atBoundary) + WordStarts(b, true)
    decreases |a|
  {
    if a == [] {
      assert a + [' '] + b == [' '] + b;
      assert ([' '] + b)[1..] == b;
    } else {
      assert (a + [' '] + b)[0] == a[0];
      assert (a + [' '] + b)[1..] == a[1..] + [' '] + b;
      if a[0] == ' ' {
        WordStartsSpaceJoin(a[1..], b, true);
      } else {
        WordStartsSpaceJoin(a[1..], b, false);
      }
    }
  }

  /** A single word (no space character at all, tabs included) has its first character as its only start. */
  lemma {:induction false} WordStartsOfOneWord(w: string, atBoundary: bool)
    requires ' ' !in w
    ensures WordStarts(w, atBoundary) == if atBoundary && w != [] then [w[0]] else ""
    decreases |w|
  {
    if w != [] {
      assert ' ' !in w[1..] by {
        forall k | 0 <= k < |w[1..]| ensures w[1..][k] != ' ' {
          assert w[1..][k] == w[k + 1];
        }
      }
      WordStartsOfOneWord(w[1..], false);
    }
  }

  /** An empty name has no initials. */
  lemma EmptyNameNoInitials()
    ensures GetInitials("") == ""
  {
  }

  /**
   * A name without the space character, however it uses tabs or other
   * whitespace, gives one initial: its first character upper-cased.
   */
  lemma OneWordOneInitial(name: string)
    requires name != [] && ' ' !in name
    ensures GetInitials(name) == [UpperChar(name[0])]
  {
    InitialsAreWordStarts(name);
    WordStartsOfOneWord(name, true);
  }

  /** First and last name give the two upper-cased first letters. */
  lemma TwoWordsTwoInitials(first: string, last: string)
    requires first != [] && ' ' !in first && last != [] && ' ' !in last
    ensures GetInitials(first + [' '] + last) == [UpperChar(first[0]), UpperChar(last[0])]
  {
    InitialsAreWordStarts(first + [' '] + last);
    WordStartsSpaceJoin(first, last, true);
    WordStartsOfOneWord(first, true);
    WordStartsOfOneWord(last, true);
  }

  /** Leading, trailing and doubled spaces contribute nothing. */
  lemma ExtraSpacesContributeNothing(a: string, b: string)
    ensures GetInitials([' '] + a) == GetInitials(a)
    ensures GetInitials(a + [' ']) == GetInitials(a)
    ensures GetInitials(a + [' ', ' '] + b) == GetInitials(a + [' '] + b)
  {
    InitialsAreWordStarts([' '] + a);
    assert ([' '] + a)[1..] == a;
    InitialsAreWordStarts(a);
    InitialsAreWordStarts(a + [' ']);
    WordStartsSpaceJoin(a, "", true);
    assert a + [' '] + "" == a + [' '];
    InitialsAreWordStarts(a + [' ', ' '] + b);
    InitialsAreWordStarts(a + [' '] + b);
    assert a + [' ', ' '] + b == a + [' '] + ([' '] + b);
    WordStartsSpaceJoin(a, [' '] + b, true);
    WordStartsSpaceJoin(a, b, true);
    assert ([' '] + b)[1..] == b;
  }

  // ---------------------------------------------------------------- sign-out

  /** The bar's session: the `currentUser` entry of `localStorage` and the bar's own `currentUser`. */
  datatype NavSession = NavSession(stored: Option<string>, currentUser: Option<User>)

  /** The session afterwards and whether the page's `onLogout` callback is called. */
  datatype LogoutEffect = LogoutEffect(session: NavSession, callsOnLogout: bool)

  /**
   * `handleLogout` once the sign-out request has settled, successfully or not:
   * both user copies are cleared, and `onLogout` is called exactly when given.
   */
  function HandleLogout(session: NavSession, onLogoutGiven: bool, signOutFailed: bool): (r: LogoutEffect)
    ensures r.session.stored.None? && r.session.currentUser.None?
    ensures r.callsOnLogout == onLogoutGiven
  {
    LogoutEffect(NavSession(None, None), onLogoutGiven)
  }

  /** Whether the sign-out request failed makes no difference. */
  lemma LogoutIgnoresSignOutOutcome(session: NavSession, onLogoutGiven: bool)
    ensures HandleLogout(session, onLogoutGiven, true) == HandleLogout(session, onLogoutGiven, false)
  {
  }
}
