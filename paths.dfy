// Go's `path` / `path/filepath` on Unix: lexical cleaning, joining, and the
// directory and last-element of a slash-separated path.
module Paths {
  import opened Wrappers
  import opened Strs

  predicate IsAbs(p: string)
  {
    |p| > 0 && p[0] == '/'
  }

  /** A path element that cleaning keeps as it is. */
  predicate PlainName(x: string)
  {
    x != "" && x != "." && x != ".." && '/' !in x
  }

  /** One element folded into the stack of elements kept so far: "" and "."
    * vanish, ".." cancels the previous real element (or is dropped at the
    * root, or kept at the front of a relative path). */
  function Push(stack: seq<string>, part: string, rooted: bool): seq<string>
  {
    if part == "" || part == "." then stack
    else if part == ".." then
      if |stack| > 0 && stack[|stack| - 1] != ".." then stack[..|stack| - 1]
      else if rooted then stack
      else stack + [".."]
    else stack + [part]
  }

  function CleanStack(parts: seq<string>, rooted: bool): (r: seq<string>)
    ensures forall i :: 0 <= i < |r| ==> r[i] != "" && r[i] in parts
    decreases |parts|
  {
    if |parts| == 0 then []
    else
      var st := CleanStack(parts[..|parts| - 1], rooted);
      var r := Push(st, parts[|parts| - 1], rooted);
      assert forall x :: x in parts[..|parts| - 1] ==> x in parts;
      r
  }

  /** `filepath.Clean`: the shortest lexically equivalent path. */
  function Clean(p: string): (r: string)
    ensures |r| > 0
    ensures IsAbs(r) <==> IsAbs(p)
  {
    if p == "" then "."
    else
      var rooted := p[0] == '/';
      var st := CleanStack(Split(p, '/'), rooted);
      var out := (if rooted then "/" else "") + Join(st, '/');
      if !rooted && |st| > 0 then
        JoinHead(st, '/');
        assert out[0] == st[0][0];
        assert st[0] in Split(p, '/');
        out
      else if out == "" then "." else out
  }

  /** `filepath.Join` / `path.Join`: the elements from the first non-empty
    * one on, joined with '/' and cleaned; "" when every element is empty. */
  function JoinPath(elems: seq<string>): (r: string)
    ensures (forall i :: 0 <= i < |elems| ==> elems[i] == "") ==> r == ""
    decreases |elems|
  {
    if |elems| == 0 then ""
    else if elems[0] != "" then Clean(Join(elems, '/'))
    else JoinPath(elems[1..])
  }

  /** `filepath.Dir`: everything up to the last '/', cleaned. */
  function Dir(p: string): (r: string)
    ensures IsAbs(p) ==> IsAbs(r)
  {
    match LastIndexOf(p, '/')
    case None => Clean("")
    case Some(i) => Clean(p[..i + 1])
  }

  /** `filepath.Base`: the last element, ignoring trailing slashes. */
  function Base(p: string): (r: string)
    ensures r != ""
    ensures '/' !in r || r == "/"
  {
    if p == "" then "."
    else
      var t := TrimRight(p, {'/'});
      if t == "" then "/"
      else
        match LastIndexOf(t, '/')
        case None => t
        case Some(i) => t[i + 1..]
  }

  // ---------------------------------------------------------------------
  // Lengths

  /** Total length of the elements, each counted with one separator. */
  function Weight(parts: seq<string>): nat
    decreases |parts|
  {
    if |parts| == 0 then 0 else Weight(parts[..|parts| - 1]) + |parts[|parts| - 1]| + 1
  }

  lemma JoinHead(parts: seq<string>, c: char)
    requires |parts| >= 1 && parts[0] != ""
    ensures |Join(parts, c)| > 0 && Join(parts, c)[0] == parts[0][0]
  {
  }

  lemma {:induction false} JoinLength(parts: seq<string>, c: char)
    requires |parts| >= 1
    ensures |Join(parts, c)| + 1 == Weight(parts)
    decreases |parts|
  {
    if |parts| > 1 {
      var init := parts[..|parts| - 1];
      var last := parts[|parts| - 1];
      assert parts == init + [last];
      JoinAppend(init, [last], c);
      JoinLength(init, c);
    }
  }

  /** Cleaning never makes the stack heavier than its input, and every empty
    * element it drops is one character saved. */
  lemma {:induction false} CleanStackWeight(parts: seq<string>, rooted: bool)
    ensures Weight(CleanStack(parts, rooted)) + multiset(parts)[""] <= Weight(parts)
    decreases |parts|
  {
    if |parts| > 0 {
      var init := parts[..|parts| - 1];
      var last := parts[|parts| - 1];
      assert parts == init + [last];
      CleanStackWeight(init, rooted);
      var st := CleanStack(init, rooted);
      if |st| > 0 {
        assert Weight(st[..|st| - 1]) <= Weight(st);
      }
      assert Weight(st + [last]) == Weight(st) + |last| + 1 by {
        assert (st + [last])[..|st|] == st;
      }
    }
  }

  /** Cleaning a non-empty path never lengthens it, and shortens it when the
    * path is longer than one character and ends in a slash. */
  lemma CleanLength(p: string)
    requires p != ""
    ensures |Clean(p)| <= |p|
    ensures |p| >= 2 && p[|p| - 1] == '/' ==> |Clean(p)| < |p|
  {
    var parts := Split(p, '/');
    var rooted := p[0] == '/';
    var st := CleanStack(parts, rooted);
    JoinLength(parts, '/');
    CleanStackWeight(parts, rooted);
    if |st| > 0 {
      JoinLength(st, '/');
    }
    var trailing := |p| >= 2 && p[|p| - 1] == '/';
    if rooted {
      LeadingSlashPart(p);
    }
    if trailing {
      TrailingSlashPart(p);
    }
    EmptyEnds(parts, rooted, trailing);
  }

  /** An empty first part and an empty last part are counted apart. */
  lemma EmptyEnds(parts: seq<string>, first: bool, last: bool)
    requires |parts| >= 1
    requires first ==> parts[0] == ""
    requires last ==> |parts| >= 2 && parts[|parts| - 1] == ""
    ensures multiset(parts)[""] >= (if first then 1 else 0) + (if last then 1 else 0)
  {
    if first && last {
      assert parts == [parts[0]] + parts[1..|parts| - 1] + [parts[|parts| - 1]];
    } else if first {
      assert parts == [parts[0]] + parts[1..];
    } else if last {
      assert parts == parts[..|parts| - 1] + [parts[|parts| - 1]];
    }
  }

  lemma LeadingSlashPart(p: string)
    requires p != "" && p[0] == '/'
    ensures Split(p, '/')[0] == ""
  {
  }

  lemma TrailingSlashPart(p: string)
    requires |p| >= 2 && p[|p| - 1] == '/'
    ensures |Split(p, '/')| >= 2 && Split(p, '/')[|Split(p, '/')| - 1] == ""
  {
    var q := p[..|p| - 1];
    assert p == q + ['/'] + "";
    SplitConcat(q, "", '/');
  }

  /** Taking the directory of a path other than "/" and "." makes progress:
    * it either reaches "." or gets strictly shorter.  This is why walking a
    * path upward with `Dir` terminates. */
  lemma DirProgress(p: string)
    requires p != "/" && p != "."
    ensures Dir(p) == "." || |Dir(p)| < |p|
  {
    var li := LastIndexOf(p, '/');
    if li.Some? {
      var i := li.value;
      var q := p[..i + 1];
      assert Dir(p) == Clean(q);
      CleanLength(q);
      if i + 1 == |p| {
        assert q == p;
        assert |p| >= 2;
      }
    }
  }

  // ---------------------------------------------------------------------
  // Paths made of plain elements are already clean

  lemma {:induction false} CleanStackPlain(parts: seq<string>)
    requires forall i :: 0 <= i < |parts| ==> PlainName(parts[i])
    ensures CleanStack([""] + parts, true) == parts
    decreases |parts|
  {
    if |parts| > 0 {
      var init := parts[..|parts| - 1];
      assert ([""] + parts)[..|parts|] == [""] + init;
      CleanStackPlain(init);
      assert init + [parts[|parts| - 1]] == parts;
    } else {
      assert CleanStack([""], true) == Push(CleanStack([], true), "", true);
    }
  }

  /** Joining two paths, the first not empty, cleans them put together
    * with a '/'. */
  lemma {:induction false} JoinPathPair(a: string, b: string)
    requires a != ""
    ensures JoinPath([a, b]) == Clean(a + "/" + b)
  {
    assert [a, b][1..] == [b];
    assert Join([a, b], '/') == a + "/" + b;
  }

  lemma {:induction false} RootedJoin(parts: seq<string>, names: seq<string>)
    requires |parts| >= 1 && |names| >= 1
    ensures "/" + Join(parts, '/') + "/" + Join(names, '/') == "/" + Join(parts + names, '/')
  {
    JoinAppend(parts, names, '/');
  }

  /** Joining a clean rooted path of plain names with more plain names
    * just puts a '/' between them. */
  lemma {:induction false} JoinUnder(head: string, parts: seq<string>, names: seq<string>)
    requires |parts| >= 1 && |names| >= 1
    requires forall i :: 0 <= i < |parts| ==> PlainName(parts[i])
    requires forall i :: 0 <= i < |names| ==> PlainName(names[i])
    requires head == "/" + Join(parts, '/')
    ensures JoinPath([head, Join(names, '/')]) == head + "/" + Join(names, '/')
  {
    var tail := Join(names, '/');
    var all := parts + names;
    assert forall i :: 0 <= i < |all| ==> PlainName(all[i]);
    var x := head + "/" + tail;
    RootedJoin(parts, names);
    CleanOfPlain(all);
    JoinPathPair(head, tail);
    assert Clean(x) == x;
  }

  /** "/" followed by plain elements joined with '/' is its own cleaning. */
  lemma {:induction false} CleanOfPlain(parts: seq<string>)
    requires |parts| >= 1
    requires forall i :: 0 <= i < |parts| ==> PlainName(parts[i])
    ensures Clean("/" + Join(parts, '/')) == "/" + Join(parts, '/')
  {
    var p := "/" + Join(parts, '/');
    assert p == "" + ['/'] + Join(parts, '/');
    SplitPrefix("", Join(parts, '/'), '/');
    SplitJoin(parts, '/');
    CleanStackPlain(parts);
  }

  /** Joining "/dev" with a plain name simply appends it. */
  lemma JoinDevName(name: string)
    requires PlainName(name)
    ensures JoinPath(["/dev", name]) == "/dev/" + name
  {
    var parts := ["dev", name];
    assert Join(parts, '/') == "dev/" + name by {
      assert parts[1..] == [name];
    }
    CleanOfPlain(parts);
    assert "/" + Join(parts, '/') == "/dev/" + name;
    assert Join(["/dev", name], '/') == "/dev/" + name by {
      assert ["/dev", name][1..] == [name];
    }
    assert JoinPath(["/dev", name]) == Clean(Join(["/dev", name], '/'));
  }

  // ---------------------------------------------------------------------
  // Walking up a clean path

  /** A trailing slash does not change the cleaning of a rooted path. */
  lemma CleanTrailingSlash(x: string)
    requires IsAbs(x)
    ensures Clean(x + "/") == Clean(x)
  {
    SplitConcat(x, "", '/');
    assert x + "/" == x + ['/'] + "";
    SplitNoSep("", '/');
    var parts := Split(x, '/') + [""];
    assert parts[..|parts| - 1] == Split(x, '/');
  }

  /** The directory of a clean rooted path of two or more elements is the
    * path without its last element. */
  lemma DirOfPlain(parts: seq<string>, last: string)
    requires |parts| >= 1 && PlainName(last)
    requires forall i :: 0 <= i < |parts| ==> PlainName(parts[i])
    ensures Dir("/" + Join(parts + [last], '/')) == "/" + Join(parts, '/')
  {
    var head := "/" + Join(parts, '/');
    var p := head + ['/'] + last;
    JoinAppend(parts, [last], '/');
    assert Join([last], '/') == last;
    RootedSnoc(Join(parts, '/'), last);
    LastIndexOfAfter(head, last, '/');
    assert p[..|head| + 1] == head + "/";
    assert Dir(p) == Clean(head + "/");
    CleanTrailingSlash(head);
    CleanOfPlain(parts);
  }

  lemma RootedSnoc(j: string, last: string)
    ensures "/" + (j + ['/'] + last) == ("/" + j) + ['/'] + last
  {
  }

  /** The directory of a one-element rooted path is the root. */
  lemma DirOfTop(last: string)
    requires PlainName(last)
    ensures Dir("/" + last) == "/"
  {
    var p := "/" + last;
    LastIndexOfAfter("", last, '/');
    assert p == "" + ['/'] + last;
    assert p[..1] == "/";
    assert Split("/", '/') == ["", ""] by {
      assert "/" == "" + ['/'] + "";
      SplitPrefix("", "", '/');
      SplitNoSep("", '/');
    }
    assert CleanStack(["", ""], true) == [] by {
      assert ["", ""][..1] == [""];
      assert CleanStack([""], true) == Push(CleanStack([], true), "", true);
    }
  }
}
