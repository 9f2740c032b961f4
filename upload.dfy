/** The image-link check shared by the upload forms: the regular expression
    `/(https?:\/\/.*\.(?:png|jpg|jpeg|gif|png|svg))/i`, tested (unanchored)
    against the link, and the validator built on it. */
module Upload {
  import opened Wrappers
  import opened Text

  /** A dropped file; only its identity matters here. */
  datatype File = File(name: string)

  /** The alternatives after the dot, in the pattern's order (`png` is
      listed twice there; the repetition changes nothing). */
  const Extensions: seq<string> := ["png", "jpg", "jpeg", "gif", "png", "svg"]

  /** The lower-cased text `t` has at `j` a dot followed by one of the
      extensions (anything may follow the extension). */
  predicate ExtensionAt(t: string, j: int)
  {
    0 <= j < |t| && t[j] == '.' && exists e :: 0 <= e < |Extensions| && Extensions[e] <= t[j + 1..]
  }

  /** `.*`: no line terminator in `t[k..j]`. */
  predicate SameLine(t: string, k: int, j: int)
    requires 0 <= k <= j <= |t|
  {
    forall m :: k <= m < j ==> !IsLineTerminator(t[m])
  }

  /** `https?://`: the scheme spelled by `t[i..k]`. */
  predicate IsScheme(w: string)
  {
    w == "http://" || w == "https://"
  }

  /** The pattern matches somewhere in `t` (already lower-cased): a scheme
      `t[i..k]`, then characters up to `j` on the same line, then a dot and
      an extension at `j`. */
  predicate MatchAt(t: string, i: int, k: int, j: int)
  {
    0 <= i <= k <= j < |t| && IsScheme(t[i..k]) && SameLine(t, k, j) && ExtensionAt(t, j)
  }

  /** The regular expression's `test`: the `i` flag folds the ASCII letters
      of the link, and the match may start and end anywhere. */
  predicate IsImageLink(s: string)
  {
    exists i, k, j :: 0 <= i <= k <= j < |s| && MatchAt(LowerAll(s), i, k, j)
  }

  // ---------------------------------------------------------------------
  // a scan that decides the pattern

  /** Some dot-and-extension at or after `k`, before the next line
      terminator. */
  function ExtensionOnLine(t: string, k: nat): bool
    decreases |t| - k
  {
    if k >= |t| || IsLineTerminator(t[k]) then false
    else ExtensionAt(t, k) || ExtensionOnLine(t, k + 1)
  }

  /** A scheme starting at or after `i` with an extension later on its
      line. */
  function SchemeOnward(t: string, i: nat): bool
    decreases |t| - i
  {
    if i >= |t| then false
    else
      (i + 7 <= |t| && t[i..i + 7] == "http://" && ExtensionOnLine(t, i + 7))
      || (i + 8 <= |t| && t[i..i + 8] == "https://" && ExtensionOnLine(t, i + 8))
      || SchemeOnward(t, i + 1)
  }

  lemma {:induction false} ExtensionOnLineIff(t: string, k: nat)
    requires k <= |t|
    ensures ExtensionOnLine(t, k) <==> exists j :: k <= j < |t| && SameLine(t, k, j) && ExtensionAt(t, j)
    decreases |t| - k
  {
    if k < |t| && !IsLineTerminator(t[k]) {
      ExtensionOnLineIff(t, k + 1);
      if ExtensionOnLine(t, k) && !ExtensionAt(t, k) {
        var j :| k + 1 <= j < |t| && SameLine(t, k + 1, j) && ExtensionAt(t, j);
        assert SameLine(t, k, j);
      }
      if j :| k <= j < |t| && SameLine(t, k, j) && ExtensionAt(t, j) {
        if j > k {
          assert SameLine(t, k + 1, j);
        }
      }
    }
  }

  lemma SchemeLength(w: string)
    requires IsScheme(w)
    ensures |w| == 7 || |w| == 8
    ensures |w| == 7 ==> w == "http://"
    ensures |w| == 8 ==> w == "https://"
  {
  }

  lemma {:induction false} SchemeOnwardIff(t: string, i: nat)
    requires i <= |t|
    ensures SchemeOnward(t, i) <==> exists i', k, j :: i <= i' && MatchAt(t, i', k, j)
    decreases |t| - i
  {
    if SchemeOnward(t, i) {
      SchemeOnwardFinds(t, i);
    }
    if i', k, j :| i <= i' && MatchAt(t, i', k, j) {
      MatchFoundOnward(t, i, i', k, j);
    }
  }

  /** What the scan finds is a match. */
  lemma {:induction false} SchemeOnwardFinds(t: string, i: nat)
    requires i <= |t| && SchemeOnward(t, i)
    ensures exists i', k, j :: i <= i' && MatchAt(t, i', k, j)
    decreases |t| - i
  {
    if i + 7 <= |t| && t[i..i + 7] == "http://" && ExtensionOnLine(t, i + 7) {
      ExtensionOnLineIff(t, i + 7);
      var j :| i + 7 <= j < |t| && SameLine(t, i + 7, j) && ExtensionAt(t, j);
      assert MatchAt(t, i, i + 7, j);
    } else if i + 8 <= |t| && t[i..i + 8] == "https://" && ExtensionOnLine(t, i + 8) {
      ExtensionOnLineIff(t, i + 8);
      var j :| i + 8 <= j < |t| && SameLine(t, i + 8, j) && ExtensionAt(t, j);
      assert MatchAt(t, i, i + 8, j);
    } else {
      SchemeOnwardFinds(t, i + 1);
    }
  }

  /** The scan from `i` finds every match that starts at or after `i`. */
  lemma {:induction false} MatchFoundOnward(t: string, i: nat, i': int, k: int, j: int)
    requires i <= i' && MatchAt(t, i', k, j)
    ensures SchemeOnward(t, i)
    decreases i' - i
  {
    if i' == i {
      SchemeLength(t[i..k]);
      ExtensionOnLineIff(t, k);
      assert ExtensionOnLine(t, k);
    } else {
      MatchFoundOnward(t, i + 1, i', k, j);
    }
  }

  /** The scan decides the pattern. */
  function MatchesImageLink(s: string): (r: bool)
    ensures r <==> IsImageLink(s)
  {
    SchemeOnwardIff(LowerAll(s), 0);
    SchemeOnward(LowerAll(s), 0)
  }

  // ---------------------------------------------------------------------
  // the validator

  /** The link field's validator: an empty link is no error; otherwise the
      link must match the pattern or the error is "Invalid link". */
  function ValidateLink(link: string): (r: Option<string>)
    ensures r == None <==> (link == "" || IsImageLink(link))
    ensures r != None ==> r == Some("Invalid link")
  {
    if link != "" then (if MatchesImageLink(link) then None else Some("Invalid link")) else None
  }

  // ---------------------------------------------------------------------
  // which source a submission takes

  /** What a submission uploads: the typed link, the dropped file, or
      nothing. */
  datatype Source = LinkSource(url: string) | FileSource(file: File) | NoSource

  /** The submission branch: a typed link is taken even when a file was
      dropped as well; the file only when there is no link; otherwise
      nothing. */
  function SubmissionSource(link: string, file: Option<File>): (r: Source)
    ensures r.LinkSource? <==> link != ""
    ensures r.LinkSource? ==> r.url == link
    ensures r.FileSource? <==> link == "" && file.Some?
    ensures r.FileSource? ==> file == Some(r.file)
    ensures r == NoSource <==> link == "" && file == None
  {
    if link != "" then LinkSource(link)
    else if file.Some? then FileSource(file.value)
    else NoSource
  }

  /** Once a link is typed, the dropped file does not matter. */
  lemma LinkWinsOverFile(link: string, f: File)
    requires link != ""
    ensures SubmissionSource(link, Some(f)) == SubmissionSource(link, None) == LinkSource(link)
  {
  }

  /** The pattern is not anchored: text before the scheme and after the
      extension is allowed, so a query string still passes. */
  lemma QueryStringAccepted()
    ensures IsImageLink("a http://b.png?c")
  {
    var t := LowerAll("a http://b.png?c");
    assert t == "a http://b.png?c";
    assert t[2..9] == "http://" && t[11..] == "png?c" && Extensions[0] <= t[11..];
    assert MatchAt(t, 2, 9, 10);
  }

  /** A longer extension that starts with an accepted one passes. */
  lemma LongerExtensionAccepted()
    ensures IsImageLink("http://x.svgz")
  {
    var u := LowerAll("http://x.svgz");
    assert u == "http://x.svgz";
    assert u[..7] == "http://" && u[9..] == "svgz" && Extensions[5] <= u[9..];
    assert MatchAt(u, 0, 7, 8);
  }

  /** Case is ignored. */
  lemma UpperCaseAccepted()
    ensures IsImageLink("HTTP://X.JPEG")
  {
    var v := LowerAll("HTTP://X.JPEG");
    assert v == "http://x.jpeg";
    assert v[..7] == "http://" && v[9..] == "jpeg" && Extensions[2] <= v[9..];
    assert MatchAt(v, 0, 7, 8);
  }

  /** A line break between the scheme and the dot, or a scheme other than
      http(s), fails the pattern. */
  lemma RejectedExamples()
    ensures !IsImageLink("http://x\n.png")
    ensures !IsImageLink("ftp://x.png")
  {
    var t := LowerAll("http://x\n.png");
    assert t == "http://x\n.png";
    forall i, k | 0 <= i <= k <= |t| && IsScheme(t[i..k])
      ensures i == 0 && k == 7
    {
      assert t[i..k][0] == t[i] && t[i..k][4] == t[i + 4];
    }
    forall j | 0 <= j < |t| && t[j] == '.'
      ensures j == 9
    {
    }
    assert IsLineTerminator(t[8]);
    var u := LowerAll("ftp://x.png");
    assert u == "ftp://x.png";
    forall i, k | 0 <= i <= k <= |u|
      ensures !IsScheme(u[i..k])
    {
      if k > i {
        assert u[i..k][0] == u[i];
      }
    }
  }
}
