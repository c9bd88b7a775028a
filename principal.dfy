/**
 * The `DOMAIN\user` rule both servers apply to the principal name the
 * provider reports: `@domain, @username = name.split("\\")`, taken only when
 * the name holds a backslash. Ruby's `String#split` with a one-character
 * separator cuts at every separator and then drops trailing empty fields;
 * the parallel assignment takes the first two fields, nil where missing.
 */
module Principal {
  import opened Sspi

  const Backslash: char := '\\'

  /** Every field between backslashes, trailing empty ones included (`split("\\", -1)`). */
  function Fields(s: string): (fs: seq<string>)
    ensures |fs| >= 1
    ensures forall i :: 0 <= i < |fs| ==> Backslash !in fs[i]
  {
    if s == [] then [[]]
    else
      var rest := Fields(s[1..]);
      if s[0] == Backslash then [[]] + rest
      else [[s[0]] + rest[0]] + rest[1..]
  }

  /** The fields put back together, a backslash between each two. */
  function Join(fs: seq<string>): string
    requires |fs| >= 1
  {
    if |fs| == 1 then fs[0] else fs[0] + [Backslash] + Join(fs[1..])
  }

  /** Cutting at every backslash loses nothing: joining the fields gives the name back. */
  lemma {:induction false} JoinFields(s: string)
    ensures Join(Fields(s)) == s
  {
    if s != [] {
      JoinFields(s[1..]);
      var rest := Fields(s[1..]);
      if s[0] == Backslash {
        assert ([[]] + rest)[1..] == rest;
      } else {
        var fs := [[s[0]] + rest[0]] + rest[1..];
        if |rest| > 1 {
          assert fs[1..] == rest[1..];
          assert Join(rest) == rest[0] + [Backslash] + Join(rest[1..]);
        }
      }
    }
  }

  /** A backslash-free prefix joins the first field. */
  lemma {:induction false} FieldsOfPrefix(a: string, t: string)
    requires Backslash !in a
    ensures Fields(a + t) == [a + Fields(t)[0]] + Fields(t)[1..]
  {
    if a != [] {
      assert (a + t)[1..] == a[1..] + t;
      FieldsOfPrefix(a[1..], t);
      assert [a[0]] + (a[1..] + Fields(t)[0]) == a + Fields(t)[0];
    } else {
      assert a + t == t;
      assert a + Fields(t)[0] == Fields(t)[0];
      assert Fields(t) == [Fields(t)[0]] + Fields(t)[1..];
    }
  }

  /** And conversely: backslash-free fields are recovered from their join. */
  lemma {:induction false} FieldsJoin(fs: seq<string>)
    requires |fs| >= 1
    requires forall i :: 0 <= i < |fs| ==> Backslash !in fs[i]
    ensures Fields(Join(fs)) == fs
  {
    if |fs| == 1 {
      FieldsOfPrefix(fs[0], []);
      assert fs[0] + [] == fs[0];
    } else {
      FieldsJoin(fs[1..]);
      var t := [Backslash] + Join(fs[1..]);
      assert fs[0] + [Backslash] + Join(fs[1..]) == fs[0] + t;
      FieldsOfPrefix(fs[0], t);
      assert t[1..] == Join(fs[1..]);
      assert Fields(t) == [[]] + fs[1..];
      assert fs[0] + Fields(t)[0] == fs[0];
      assert Fields(t)[1..] == fs[1..];
      assert fs == [fs[0]] + fs[1..];
    }
  }

  /** Ruby's limit-0 split result: the fields with the trailing empty ones dropped. */
  function DropTrailingEmpty(fs: seq<string>): (r: seq<string>)
    ensures |r| <= |fs| && r == fs[..|r|]
    ensures r == [] || r[|r| - 1] != []
    ensures forall i :: |r| <= i < |fs| ==> fs[i] == []
  {
    if fs == [] || fs[|fs| - 1] != [] then fs else DropTrailingEmpty(fs[..|fs| - 1])
  }

  /** `s.split("\\")` */
  function Split(s: string): seq<string> {
    DropTrailingEmpty(Fields(s))
  }

  /** The values `@domain, @username = s.split("\\")` assigns. */
  datatype Parts = Parts(domain: Option<string>, user: Option<string>)

  function DomainAndUser(s: string): Parts {
    var fs := Split(s);
    Parts(if |fs| > 0 then Some(fs[0]) else None, if |fs| > 1 then Some(fs[1]) else None)
  }

  /** Every field from index `from` on is empty. */
  predicate EmptyFrom(fs: seq<string>, from: nat) {
    forall k :: from <= k < |fs| ==> fs[k] == []
  }

  /**
   * In terms of all the fields: the domain is the first field unless every
   * field is empty, the user the second unless every field after the first
   * is empty; a third field and beyond are lost.
   */
  lemma DomainAndUserFields(s: string)
    ensures DomainAndUser(s).domain == if EmptyFrom(Fields(s), 0) then None else Some(Fields(s)[0])
    ensures DomainAndUser(s).user == if EmptyFrom(Fields(s), 1) then None else Some(Fields(s)[1])
  {
    var fs, r := Fields(s), Split(s);
    if |r| > 0 {
      assert fs[|r| - 1] == r[|r| - 1] != [];
    }
    if |r| > 1 {
      assert fs[1] == r[1];
    }
  }

  /**
   * A name with exactly one backslash, at `i`: the domain is the text before
   * it and the user the text after it, except that an empty tail gives a nil
   * user, and a lone backslash gives nil for both.
   */
  lemma OneBackslash(s: string, i: nat)
    requires i < |s| && s[i] == Backslash
    requires Backslash !in s[..i] && Backslash !in s[i + 1..]
    ensures DomainAndUser(s).user == (if s[i + 1..] != [] then Some(s[i + 1..]) else None)
    ensures DomainAndUser(s).domain == (if s != [Backslash] then Some(s[..i]) else None)
  {
    var fs := [s[..i], s[i + 1..]];
    assert fs[1..] == [s[i + 1..]];
    assert Join(fs) == s[..i] + [Backslash] + s[i + 1..];
    assert s == s[..i] + [Backslash] + s[i + 1..];
    FieldsJoin(fs);
    DomainAndUserFields(s);
    if s[i + 1..] == [] && s[..i] == [] {
      assert s == [Backslash];
    }
  }

  /** Cutting at a backslash that follows backslash-free text. */
  lemma FieldsAtBackslash(a: string, t: string)
    requires Backslash !in a
    ensures Fields(a + [Backslash] + t) == [a] + Fields(t)
  {
    var u := [Backslash] + t;
    assert a + [Backslash] + t == a + u;
    FieldsOfPrefix(a, u);
    assert u[1..] == t;
    assert Fields(u) == [[]] + Fields(t);
    assert a + Fields(u)[0] == a;
    assert Fields(u)[1..] == Fields(t);
  }

  /**
   * With two or more backslashes the domain is still the text before the
   * first one, and the user the text between the first and the second (as
   * long as some text follows the first); everything after is dropped.
   */
  lemma FirstTwoFields(s: string, i: nat, j: nat)
    requires i < j < |s| && s[i] == Backslash && s[j] == Backslash
    requires Backslash !in s[..i] && Backslash !in s[i + 1..j]
    requires exists k :: i < k < |s| && s[k] != Backslash
    ensures DomainAndUser(s) == Parts(Some(s[..i]), Some(s[i + 1..j]))
  {
    var a, b, t := s[..i], s[i + 1..j], s[j + 1..];
    assert s == a + [Backslash] + (b + [Backslash] + t);
    FieldsAtBackslash(a, b + [Backslash] + t);
    FieldsAtBackslash(b, t);
    var ft := Fields(t);
    var fs := Fields(s);
    assert fs == [a] + ([b] + ft);
    var k :| i < k < |s| && s[k] != Backslash;
    // some field after the first is non-empty: the one holding s[k]
    if k < j {
      assert b[k - i - 1] == s[k];
      assert fs[1] != [];
    } else {
      assert t[k - j - 1] == s[k];
      NonEmptyField(t, k - j - 1);
      var m :| 0 <= m < |ft| && ft[m] != [];
      assert fs[2 + m] == ft[m];
    }
    DomainAndUserFields(s);
  }

  /** A string with a non-backslash character has a non-empty field. */
  lemma {:induction false} NonEmptyField(t: string, k: nat)
    requires k < |t| && t[k] != Backslash
    ensures exists m :: 0 <= m < |Fields(t)| && Fields(t)[m] != []
  {
    var rest := Fields(t[1..]);
    if t[0] != Backslash {
      assert Fields(t)[0] != [];
    } else {
      NonEmptyField(t[1..], k - 1);
      var m :| 0 <= m < |rest| && rest[m] != [];
      assert Fields(t)[m + 1] == rest[m];
    }
  }

  /** Two backslashes: the third field is dropped. */
  lemma ExampleThreeFields()
    ensures DomainAndUser("a\\b\\c") == Parts(Some("a"), Some("b"))
  {
    assert "a\\b\\c" == "a" + [Backslash] + ("b" + [Backslash] + "c");
    FieldsAtBackslash("a", "b" + [Backslash] + "c");
    FieldsAtBackslash("b", "c");
    assert "c"[1..] == [] && Fields([]) == [[]];
    assert Fields("c") == [['c'] + []] + [];
    assert ['c'] + [] == "c";
    assert Fields("b" + [Backslash] + "c") == ["b", "c"];
    assert Fields("a\\b\\c") == ["a"] + ["b", "c"];
  }

  /** A trailing backslash: the empty user field is dropped, so the user is nil. */
  lemma ExampleTrailingBackslash()
    ensures DomainAndUser("DOM\\") == Parts(Some("DOM"), None)
  {
    assert "DOM\\" == "DOM" + [Backslash] + [];
    FieldsAtBackslash("DOM", []);
    assert Fields("DOM\\") == ["DOM", []];
    assert Split("DOM\\") == ["DOM"];
  }
}
