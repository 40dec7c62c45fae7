// Removal of C block comments the way the plugin's non-greedy, DOTALL
// regular expression performs it: scanning left to right, an opener (slash,
// star) together with the first closer (star, slash) that begins at least
// two characters after it is deleted; an opener without such a closer is
// kept as ordinary text.
module CommentScan {
  import opened Wrappers

  predicate OpenAt(s: string, i: int) {
    0 <= i && i + 1 < |s| && s[i] == '/' && s[i + 1] == '*'
  }

  predicate CloseAt(s: string, i: int) {
    0 <= i && i + 1 < |s| && s[i] == '*' && s[i + 1] == '/'
  }

  // First index at or after `from` where a closer begins (the non-greedy `.*?`).
  function FindClose(s: string, from: nat): (r: Option<nat>)
    ensures r.Some? ==> from <= r.value && CloseAt(s, r.value)
    ensures r.Some? ==> forall j :: from <= j < r.value ==> !CloseAt(s, j)
    ensures r.None? ==> forall j :: from <= j ==> !CloseAt(s, j)
    decreases |s| - from
  {
    if from + 1 >= |s| then None
    else if CloseAt(s, from) then Some(from)
    else FindClose(s, from + 1)
  }

  function StripBlockComments(s: string): (r: string)
    ensures |r| <= |s|
    decreases |s|
  {
    if s == [] then []
    else if OpenAt(s, 0) && FindClose(s, 2).Some? then
      StripBlockComments(s[FindClose(s, 2).value + 2..])
    else [s[0]] + StripBlockComments(s[1..])
  }

  // Text without any opener is left as it is.
  lemma {:induction false} StripWithoutOpener(s: string)
    requires forall i :: !OpenAt(s, i)
    ensures StripBlockComments(s) == s
    decreases |s|
  {
    if s != [] {
      assert !OpenAt(s, 0);
      assert forall i :: OpenAt(s[1..], i) ==> OpenAt(s, i + 1);
      StripWithoutOpener(s[1..]);
      assert s == [s[0]] + s[1..];
    }
  }

  // A leading comment whose body holds no closer disappears entirely.
  lemma StripLeadingComment(body: string, rest: string)
    requires forall j :: !CloseAt(body, j)
    ensures StripBlockComments("/*" + body + "*/" + rest) == StripBlockComments(rest)
  {
    var s := "/*" + body + "*/" + rest;
    var k := |body| + 2;
    assert OpenAt(s, 0);
    assert CloseAt(s, k);
    forall j | 2 <= j < k ensures !CloseAt(s, j) {
      if j + 1 < k {
        assert s[j] == body[j - 2] && s[j + 1] == body[j - 1];
        assert !CloseAt(body, j - 2);
      } else {
        assert s[j + 1] == '*';
      }
    }
    assert FindClose(s, 2) == Some(k);
    assert s[k + 2..] == rest;
  }

  // A character that does not start an opener is kept.
  lemma StripKeepsPlainChar(c: char, rest: string)
    requires !OpenAt([c] + rest, 0)
    ensures StripBlockComments([c] + rest) == [c] + StripBlockComments(rest)
  {
    assert ([c] + rest)[1..] == rest;
  }

  // An opener that no later closer matches is ordinary text: its slash is
  // kept and the scan resumes at the star.
  lemma StripKeepsUnclosed(s: string)
    requires OpenAt(s, 0) && forall j :: 2 <= j ==> !CloseAt(s, j)
    ensures StripBlockComments(s) == [s[0]] + StripBlockComments(s[1..])
  {
  }
}
