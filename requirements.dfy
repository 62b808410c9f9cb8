// The install script's reading of requirements.txt: every line is
// stripped, and blank lines and comment lines are dropped.

module Requirements {
  import opened Core
  import opened Strings

  /** A line that names a requirement: not blank once stripped, and not a
      `#` comment. */
  predicate Kept(line: string)
  {
    var s := Strip(line);
    s != [] && s[0] != '#'
  }

  /** The requirement list built from the lines of the file, in order. */
  function Requirements(lines: seq<string>): (r: seq<string>)
    ensures |r| <= |lines|
    ensures forall i :: 0 <= i < |r| ==> r[i] != [] && r[i][0] != '#'
  {
    if lines == [] then []
    else (if Kept(lines[0]) then [Strip(lines[0])] else []) + Requirements(lines[1..])
  }

  /** A missing requirements file gives no requirements. */
  function RequirementsOfFile(file: Option<seq<string>>): (r: seq<string>)
    ensures file.None? ==> r == []
    ensures file.Some? ==> r == Requirements(file.value)
  {
    match file
    case None => []
    case Some(lines) => Requirements(lines)
  }

  /** A requirement is exactly the stripped text of a kept line. */
  lemma {:induction false} RequirementsMembers(lines: seq<string>, x: string)
    ensures x in Requirements(lines) <==>
            exists i :: 0 <= i < |lines| && Kept(lines[i]) && x == Strip(lines[i])
    decreases |lines|
  {
    if lines != [] {
      RequirementsMembers(lines[1..], x);
      if x in Requirements(lines[1..]) {
        var i :| 1 <= i + 1 <= |lines[1..]| && Kept(lines[1..][i]) && x == Strip(lines[1..][i]);
        assert lines[i + 1] == lines[1..][i];
      }
      if exists i :: 0 <= i < |lines| && Kept(lines[i]) && x == Strip(lines[i]) {
        var i :| 0 <= i < |lines| && Kept(lines[i]) && x == Strip(lines[i]);
        if i > 0 {
          assert lines[1..][i - 1] == lines[i];
        }
      }
    }
  }

  /** The file is read line by line: the requirements of two consecutive
      stretches of lines are those of the first followed by those of the
      second. */
  lemma {:induction false} RequirementsAppend(a: seq<string>, b: seq<string>)
    ensures Requirements(a + b) == Requirements(a) + Requirements(b)
    decreases |a|
  {
    if a == [] {
      assert a + b == b;
    } else {
      assert (a + b)[1..] == a[1..] + b;
      RequirementsAppend(a[1..], b);
    }
  }

  /** Every requirement is already stripped. */
  lemma RequirementsStripped(lines: seq<string>, i: nat)
    requires i < |Requirements(lines)|
    ensures Strip(Requirements(lines)[i]) == Requirements(lines)[i]
  {
    var x := Requirements(lines)[i];
    RequirementsMembers(lines, x);
    var j :| 0 <= j < |lines| && Kept(lines[j]) && x == Strip(lines[j]);
    StripIdempotent(lines[j]);
  }

  /** Filtering the result a second time changes nothing. */
  lemma {:induction false} RequirementsIdempotent(lines: seq<string>)
    ensures Requirements(Requirements(lines)) == Requirements(lines)
    decreases |lines|
  {
    if lines != [] {
      RequirementsIdempotent(lines[1..]);
      var rest := Requirements(lines[1..]);
      if Kept(lines[0]) {
        var s := Strip(lines[0]);
        StripIdempotent(lines[0]);
        assert Kept(s);
        assert ([s] + rest)[0] == s && ([s] + rest)[1..] == rest;
        assert Requirements([s] + rest) == [s] + rest;
      } else {
        assert Requirements(lines) == [] + rest == rest;
      }
    }
  }
}
