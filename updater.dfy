/**
 * The release check of `OTAUpdater.checkForUpdate`: how the running version is compared
 * with the latest release, which asset of the release is picked for the platform, how
 * the release notes are cut out of the change log, and what the check leaves in its
 * `url` attribute and returns. Network answers, the platform name and the user's answer
 * are inputs.
 */
module OtaUpdater {
  import opened Strings

  /** What `url` holds after a failure that happened before an asset was read. */
  const NoFileMessage: string := "[+] No exe/bin/run file as an update available!"

  /** The value returned for a version that is not behind the latest release. */
  const DevelopmentVersion: string := "d"

  const Mebibyte: nat := 1048576

  /** One asset of a release as the releases API describes it. */
  datatype Asset = Asset(downloadUrl: string, size: nat)

  /** The parts of the releases API answer the check reads; a missing key is `None`. */
  datatype Response = Response(assets: Option<seq<Asset>>, tagName: Option<string>, message: Option<string>)

  // ---------------------------------------------------------------------------
  // The asset for the platform

  /** The asset position for a platform name: 1 on Windows, 2 on macOS, 0 otherwise. */
  function AssetIndex(system: string): nat
  {
    if Contains(system, "Windows") then 1 else if Contains(system, "Darwin") then 2 else 0
  }

  /** `get_latest_release_info`: the download link of the platform's asset and its size in
      whole mebibytes; `None` where the answer has no asset list or no asset at that
      position (the lookup raises). */
  function ReleaseInfo(resp: Response, system: string): Option<(string, nat)>
  {
    var k := AssetIndex(system);
    if resp.assets.None? || k >= |resp.assets.value| then None
    else Some((resp.assets.value[k].downloadUrl, resp.assets.value[k].size / Mebibyte))
  }

  /** The asset read is the Windows one, the macOS one or the first, by platform name, and
      its size is the byte count truncated to mebibytes. */
  lemma AssetForPlatform(resp: Response, system: string)
    ensures Contains(system, "Windows") ==> AssetIndex(system) == 1
    ensures !Contains(system, "Windows") && Contains(system, "Darwin") ==> AssetIndex(system) == 2
    ensures !Contains(system, "Windows") && !Contains(system, "Darwin") ==> AssetIndex(system) == 0
    ensures ReleaseInfo(resp, system).Some? <==>
      resp.assets.Some? && AssetIndex(system) < |resp.assets.value|
    ensures ReleaseInfo(resp, system).Some? ==>
      var asset := resp.assets.value[AssetIndex(system)];
      var (link, mib) := ReleaseInfo(resp, system).value;
      link == asset.downloadUrl && mib * Mebibyte <= asset.size < (mib + 1) * Mebibyte
  {
  }

  // ---------------------------------------------------------------------------
  // The version decision

  /** `float(".".join([parts[0], parts[1]]))`; `None` where an index or the conversion
      raises. */
  function MajorMinor(parts: seq<string>): Option<Decimal>
  {
    if |parts| < 2 then None else ParseFloat(parts[0] + "." + parts[1])
  }

  /** `float(parts[k])`; `None` where the index or the conversion raises. */
  function Component(parts: seq<string>, k: nat): Option<Decimal>
  {
    if k < |parts| then ParseFloat(parts[k]) else None
  }

  /** The three ways the comparison ends: an update is flagged, none is, or an expression
      in it raises. */
  datatype Decision = Update | NoUpdate | Fails

  /** The comparison of the running version's parts `now` (major.minor value `a`) with the
      release's parts `rel` (major.minor value `b`), as written. */
  function Decide(now: seq<string>, rel: seq<string>, a: Decimal, b: Decimal): Decision
  {
    if DecLess(a, b) then Update
    else if DecEq(a, b) && |now| < |rel| then Update
    else if DecEq(a, b) && |now| == |rel| then
      match (Component(now, 2), Component(rel, 2))
      case (Some(x), Some(y)) =>
        if DecLess(x, y) then Update
        else if DecEq(x, y) then
          match (Component(now, 3), Component(rel, 3))
          case (Some(u), Some(v)) => if DecLess(u, v) then Update else NoUpdate
          case _ => Fails
        else NoUpdate
      case _ => Fails
    else NoUpdate
  }

  /** Every part from position 2 on reads as a number. */
  predicate NumericTail(parts: seq<string>)
  {
    forall k :: 2 <= k < |parts| ==> ParseFloat(parts[k]).Some?
  }

  /** An update is flagged exactly when the release's major.minor is higher; or it is equal
      and the release has more parts; or, with as many parts, the release's third part is
      higher; or the third parts are equal too and the release's fourth part is higher.
      The comparison raises exactly when the major.minor values and the part counts are
      equal and there is no third part, or no fourth part while the third parts are equal. */
  lemma VersionDecision(now: seq<string>, rel: seq<string>, a: Decimal, b: Decimal)
    requires |now| >= 2 && |rel| >= 2 && NumericTail(now) && NumericTail(rel)
    ensures Decide(now, rel, a, b) == Update <==>
      DecLess(a, b)
      || (DecEq(a, b) && |now| < |rel|)
      || (DecEq(a, b) && |now| == |rel| && |now| >= 3
          && DecLess(ParseFloat(now[2]).value, ParseFloat(rel[2]).value))
      || (DecEq(a, b) && |now| == |rel| && |now| >= 4
          && DecEq(ParseFloat(now[2]).value, ParseFloat(rel[2]).value)
          && DecLess(ParseFloat(now[3]).value, ParseFloat(rel[3]).value))
    ensures Decide(now, rel, a, b) == Fails <==>
      !DecLess(a, b) && DecEq(a, b) && |now| == |rel|
      && (|now| == 2
          || (|now| == 3 && !DecLess(ParseFloat(now[2]).value, ParseFloat(rel[2]).value)
              && DecEq(ParseFloat(now[2]).value, ParseFloat(rel[2]).value)))
  {
  }

  /** A version whose major.minor value equals the release's and that has as many parts as
      the release, two or three, each a number, makes the comparison raise instead of
      deciding. */
  lemma EqualShortVersionsFail(now: seq<string>, a: Decimal)
    requires 2 <= |now| <= 3 && NumericTail(now)
    ensures Decide(now, now, a, a) == Fails
  {
    if |now| == 3 {
      var x := ParseFloat(now[2]).value;
      assert !DecLess(x, x) && DecEq(x, x);
    }
  }

  /** The comparison with the part lookups guarded: a part that is not there does not count
      as higher, so equal versions flag no update whatever their length. */
  function IntendedDecide(now: seq<string>, rel: seq<string>, a: Decimal, b: Decimal): Decision
  {
    if DecLess(a, b) then Update
    else if DecEq(a, b) && |now| < |rel| then Update
    else if DecEq(a, b) && |now| == |rel| && |now| >= 3 then
      match (Component(now, 2), Component(rel, 2))
      case (Some(x), Some(y)) =>
        if DecLess(x, y) then Update
        else if DecEq(x, y) && |now| >= 4 then
          match (Component(now, 3), Component(rel, 3))
          case (Some(u), Some(v)) => if DecLess(u, v) then Update else NoUpdate
          case _ => Fails
        else NoUpdate
      case _ => Fails
    else NoUpdate
  }

  /** The guarded comparison never raises on numeric parts, agrees with the written one
      wherever that one decides, and finds no update between a version and itself. */
  lemma IntendedDecision(now: seq<string>, rel: seq<string>, a: Decimal, b: Decimal)
    requires NumericTail(now) && NumericTail(rel)
    ensures IntendedDecide(now, rel, a, b) != Fails
    ensures Decide(now, rel, a, b) != Fails ==> IntendedDecide(now, rel, a, b) == Decide(now, rel, a, b)
    ensures IntendedDecide(now, now, a, a) == NoUpdate
  {
    if |now| >= 3 {
      var x := ParseFloat(now[2]).value;
      assert !DecLess(x, x);
    }
    if |now| >= 4 {
      var u := ParseFloat(now[3]).value;
      assert !DecLess(u, u);
    }
  }

  // ---------------------------------------------------------------------------
  // The release notes

  /** `showWhatsNew` on the change log `md`: the text after the first "New?" and before
      "## Older Releases", "* " written "- ", back-quotes dropped, blanks stripped, and a
      newline added; `None` where there is no "New?" (the index raises). */
  function WhatsNew(md: string): Option<string>
  {
    var parts := Split(md, "New?");
    if |parts| < 2 then None
    else
      var section := Split(parts[1], "## Older Releases")[0];
      Some(Strip(Replace(Replace(section, "* ", "- "), "`", "")) + "\n")
  }

  /** The notes exist exactly when the change log has a "New?"; they end with a newline,
      hold no back-quote, and start with no blank unless they are just the newline. */
  lemma WhatsNewShape(md: string)
    ensures WhatsNew(md).Some? <==> Contains(md, "New?")
    ensures WhatsNew(md).Some? ==>
      var t := WhatsNew(md).value;
      EndsWith(t, "\n") && '`' !in t && (t == "\n" || !IsSpace(t[0]))
  {
    var parts := Split(md, "New?");
    if Contains(md, "New?") {
      assert |parts| >= 2;
      CleanNotesShape(Split(parts[1], "## Older Releases")[0]);
    } else {
      assert parts == [md];
    }
  }

  /** The cleaning steps leave no back-quote and no leading blank, and end with a newline. */
  lemma CleanNotesShape(section: string)
    ensures var t := Strip(Replace(Replace(section, "* ", "- "), "`", "")) + "\n";
      EndsWith(t, "\n") && '`' !in t && (t == "\n" || !IsSpace(t[0]))
  {
    var r := Replace(Replace(section, "* ", "- "), "`", "");
    ReplaceRemoves(Replace(section, "* ", "- "), '`');
    StripKeepsOut(r, '`');
    var t := Strip(r) + "\n";
    assert t[|t| - 1..] == "\n";
  }

  /** Notes written plainly after the marker come back as written, with a newline. */
  lemma WhatsNewPlain(body: string)
    requires !Contains(body, "New?") && !Contains(body, "## Older Releases")
    requires !Contains(body, "* ") && '`' !in body
    requires |body| == 0 || (!IsSpace(body[0]) && !IsSpace(body[|body| - 1]))
    ensures WhatsNew("New?" + body) == Some(body + "\n")
  {
    var md := "New?" + body;
    assert OccursAt(md, "New?", 0) by { assert md[0..4] == "New?"; }
    assert md[4..] == body;
    assert Split(md, "New?") == [""] + Split(body, "New?");
    PlainNotes(body);
  }

  /** The marker that ends the notes of the latest release. */
  const OlderReleases: string := "## Older Releases"

  /** Plain notes between the first "New?" and the older releases come back as written,
      with a newline, whatever precedes the marker and follows the older releases. */
  lemma WhatsNewCut(pre: string, body: string, rest: string)
    requires !Contains(pre, "New?")
    requires !Contains(body, "New?") && !Contains(body, OlderReleases)
    requires !Contains(body, "* ") && '`' !in body
    requires |body| == 0 || (!IsSpace(body[0]) && !IsSpace(body[|body| - 1]))
    ensures WhatsNew(pre + "New?" + body + OlderReleases + rest) == Some(body + "\n")
  {
    NotesSection(pre, body, rest);
    PlainNotes(body);
  }

  /** A bullet "* " that opens the notes comes back as "- ". */
  lemma WhatsNewBullet(pre: string, item: string, rest: string)
    requires !Contains(pre, "New?")
    requires !Contains("* " + item, "New?") && !Contains("* " + item, OlderReleases)
    requires !Contains(item, "* ") && '`' !in item
    requires |item| > 0 && !IsSpace(item[|item| - 1])
    ensures WhatsNew(pre + "New?" + "* " + item + OlderReleases + rest) == Some("- " + item + "\n")
  {
    NotesSection(pre, "* " + item, rest);
    assert pre + "New?" + "* " + item + OlderReleases + rest == pre + "New?" + ("* " + item) + OlderReleases + rest;
    BulletNotes(item);
  }

  /** The section `showWhatsNew` cleans is the text between the first "New?" and the
      first "## Older Releases" after it. */
  lemma NotesSection(pre: string, body: string, rest: string)
    requires !Contains(pre, "New?")
    requires !Contains(body, "New?") && !Contains(body, OlderReleases)
    ensures var parts := Split(pre + "New?" + body + OlderReleases + rest, "New?");
      |parts| >= 2 && Split(parts[1], OlderReleases)[0] == body
  {
    var x := body + OlderReleases + rest;
    assert pre + "New?" + body + OlderReleases + rest == pre + "New?" + x;
    MarkerFirst(pre, x);
    var c := Split(x, "New?")[0];
    NoMarkerBeforeOlder(body, rest);
    OlderFirst(body, c);
  }

  /** The first "New?" is the one right after a prefix that holds none. */
  lemma MarkerFirst(pre: string, x: string)
    requires !Contains(pre, "New?")
    ensures Split(pre + "New?" + x, "New?") == [pre] + Split(x, "New?")
  {
    var s := pre + "New?" + x;
    var n := |pre|;
    assert s[n..n + 4] == "New?";
    MarkerChars();
    forall j | 0 <= j < n ensures !OccursAt(s, "New?", j) {
      if j + 4 <= n {
        assert !OccursAt(pre, "New?", j);
        assert s[j..j + 4] == pre[j..j + 4];
      } else {
        assert s[j..j + 4][n - j] == s[n] == 'N';
      }
    }
    SplitAtFirst(s, "New?", n);
    assert s[..n] == pre && s[n + 4..] == x;
  }

  /** No "New?" starts before the end of "## Older Releases" after a body that holds none. */
  lemma NoMarkerBeforeOlder(body: string, rest: string)
    requires !Contains(body, "New?")
    ensures var x := body + OlderReleases + rest;
      var c := Split(x, "New?")[0];
      |body| + |OlderReleases| <= |c| && c[..|body| + |OlderReleases|] == body + OlderReleases
  {
    var x := body + OlderReleases + rest;
    var n := |body|;
    forall i | 0 <= i < n + 17 ensures !OccursAt(x, "New?", i) {
      MarkerNotInOlder(body, rest, i);
    }
    var f := Find(x, "New?");
    if f.Some? {
      assert x[..f.value][..n + 17] == body + OlderReleases;
    } else {
      assert x[..n + 17] == body + OlderReleases;
    }
  }

  /** "New?" starts neither in a body that holds none nor in the "## Older Releases" after
      it. */
  lemma MarkerNotInOlder(body: string, rest: string, i: nat)
    requires !Contains(body, "New?")
    requires i < |body| + |OlderReleases|
    ensures !OccursAt(body + OlderReleases + rest, "New?", i)
  {
    var x := body + OlderReleases + rest;
    var n := |body|;
    if i + 4 <= |x| {
      MarkerChars();
      OlderChars();
      if i + 4 <= n {
        assert !OccursAt(body, "New?", i);
        assert x[i..i + 4] == body[i..i + 4];
      } else if i < n {
        assert x[i..i + 4][n - i] == x[n] == '#';
      } else {
        assert x[i..i + 4][0] == x[i] == OlderReleases[i - n];
      }
    }
  }

  /** The first "## Older Releases" is the one right after a body that holds none. */
  lemma OlderFirst(body: string, c: string)
    requires !Contains(body, OlderReleases)
    requires |body| + |OlderReleases| <= |c| && c[..|body| + |OlderReleases|] == body + OlderReleases
    ensures Split(c, OlderReleases)[0] == body
  {
    var n := |body|;
    assert c[n..n + 17] == OlderReleases;
    forall j | 0 <= j < n ensures !OccursAt(c, OlderReleases, j) {
      OlderNotEarlier(body, c, j);
    }
    SplitAtFirst(c, OlderReleases, n);
    assert c[..n] == body;
  }

  /** "## Older Releases" does not start inside a body that holds none, when it follows it. */
  lemma OlderNotEarlier(body: string, c: string, j: nat)
    requires !Contains(body, OlderReleases)
    requires |body| + |OlderReleases| <= |c| && c[..|body| + |OlderReleases|] == body + OlderReleases
    requires j < |body|
    ensures !OccursAt(c, OlderReleases, j)
  {
    var n := |body|;
    OlderChars();
    if j + 17 <= n {
      assert !OccursAt(body, OlderReleases, j);
      assert c[j..j + 17] == c[..n + 17][j..j + 17] == (body + OlderReleases)[j..j + 17] == body[j..j + 17];
    } else {
      assert c[n] == '#' && c[n + 1] == '#';
      if n - j == 1 {
        assert c[j..j + 17][2] == c[n + 1];
      } else {
        assert c[j..j + 17][n - j] == c[n];
      }
    }
  }

  /** The characters of "New?" that the proofs about the first marker use. */
  lemma MarkerChars()
    ensures "New?"[0] == 'N'
    ensures forall k :: 1 <= k < 4 ==> "New?"[k] != 'N' && "New?"[k] != '#'
  {
  }

  /** The characters of "## Older Releases" that the proofs about the cut use. */
  lemma OlderChars()
    ensures |OlderReleases| == 17
    ensures OlderReleases[0] == '#' && OlderReleases[1] == '#' && OlderReleases[2] == ' '
    ensures forall k :: 2 <= k < 17 ==> OlderReleases[k] != '#'
    ensures forall k :: 0 <= k < 17 ==> OlderReleases[k] != 'N'
  {
  }

  /** A bullet item is cleaned to the same item behind "- ". */
  lemma BulletNotes(item: string)
    requires !Contains(item, "* ") && '`' !in item
    requires |item| > 0 && !IsSpace(item[|item| - 1])
    ensures Strip(Replace(Replace("* " + item, "* ", "- "), "`", "")) == "- " + item
  {
    BulletReplaced(item);
    var d := "- " + item;
    assert '`' !in d;
    AbsentChar(d, '`');
    ReplaceAbsent(d, "`", "");
    assert d[0] == '-' && d[|d| - 1] == item[|item| - 1];
    StripPlain(d);
  }

  /** "* " opening an item with no other bullet becomes "- ". */
  lemma BulletReplaced(item: string)
    requires !Contains(item, "* ")
    ensures Replace("* " + item, "* ", "- ") == "- " + item
  {
    var b := "* " + item;
    assert StartsWith(b, "* ") && b[2..] == item;
    ReplaceAbsent(item, "* ", "- ");
  }

  /** The steps after the cut leave plain notes as they are. */
  lemma PlainNotes(body: string)
    requires !Contains(body, "* ") && '`' !in body
    requires |body| == 0 || (!IsSpace(body[0]) && !IsSpace(body[|body| - 1]))
    ensures Strip(Replace(Replace(body, "* ", "- "), "`", "")) == body
  {
    ReplaceAbsent(body, "* ", "- ");
    AbsentChar(body, '`');
    ReplaceAbsent(body, "`", "");
    StripPlain(body);
  }

  /** Replacing a text that does not occur changes nothing. */
  lemma {:induction false} ReplaceAbsent(s: string, p: string, q: string)
    requires |p| > 0 && !Contains(s, p)
    ensures Replace(s, p, q) == s
    decreases |s|
  {
    if |s| > 0 {
      assert !StartsWith(s, p) by { if StartsWith(s, p) { assert OccursAt(s, p, 0); } }
      forall i | 0 <= i <= |s| - 1 ensures !OccursAt(s[1..], p, i) {
        ShiftOccurs(s, p, i);
      }
      ReplaceAbsent(s[1..], p, q);
    }
  }

  // ---------------------------------------------------------------------------
  // The check

  /** How `checkForUpdate` ends: "d" for a version not behind the release; `None` after
      showing the notes with the download skipped, or when the user declines; leaving the
      program through the platform's updater; `None` from the failure handler; or the
      `KeyError` the handler itself raises when the answer has no "message". */
  datatype Outcome = Development | SkippedDownload | Declined | Installing | Failed | Raised

  /** The failure handler: `url` keeps an asset link already read, or gets the no-file
      message; looking up "message" in an answer without one raises. */
  function Failure(url: Option<string>, resp: Option<Response>): (Option<string>, Outcome)
  {
    (if url.Some? then url else Some(NoFileMessage),
     if resp.Some? && resp.value.message.None? then Raised else Failed)
  }

  /** What `checkForUpdate(version, skipDownload)` leaves in `url` and how it ends, given
      the releases API answer (`None` when fetching it raises), the change log (`None`
      when fetching it raises), the platform name, the user's answer, and whether the
      platform's updater raises. */
  function CheckSpec(version: string, skipDownload: bool, system: string, response: Option<Response>,
                     notes: Option<string>, action: string, updateFails: bool): (Option<string>, Outcome)
  {
    var now := Split(version, ".");
    match MajorMinor(now)
    case None => Failure(None, None)
    case Some(a) =>
      if response.None? then Failure(None, None)
      else
        match ReleaseInfo(response.value, system)
        case None => Failure(None, None)
        case Some(info) => Released(now, a, response.value, info.0, skipDownload, notes, action, updateFails)
  }

  /** The part of the check after the asset link is read into `url`. */
  function Released(now: seq<string>, a: Decimal, resp: Response, link: string, skipDownload: bool,
                    notes: Option<string>, action: string, updateFails: bool): (Option<string>, Outcome)
  {
    if resp.tagName.None? then Failure(Some(link), Some(resp))
    else
      var rel := Split(resp.tagName.value, ".");
      match MajorMinor(rel)
      case None => Failure(Some(link), Some(resp))
      case Some(b) =>
        match Decide(now, rel, a, b)
        case Fails => Failure(Some(link), Some(resp))
        case NoUpdate => (Some(link), Development)
        case Update =>
          if notes.None? || WhatsNew(notes.value).None? then Failure(Some(link), Some(resp))
          else if skipDownload then (Some(link), SkippedDownload)
          else if Lower(action) != "y" then (Some(link), Declined)
          else if updateFails then Failure(Some(link), Some(resp))
          else (Some(link), Installing)
  }

  /** After the check `url` always holds something: the platform asset's link once it was
      read, and otherwise the no-file message, the check then ending in the failure
      handler without raising. */
  lemma UrlAfterCheck(version: string, skipDownload: bool, system: string, response: Option<Response>,
                      notes: Option<string>, action: string, updateFails: bool)
    ensures var (url, o) := CheckSpec(version, skipDownload, system, response, notes, action, updateFails);
      url.Some?
      && (MajorMinor(Split(version, ".")).Some? && response.Some? && ReleaseInfo(response.value, system).Some? ==>
            url == Some(ReleaseInfo(response.value, system).value.0))
      && (MajorMinor(Split(version, ".")).None? || response.None? || ReleaseInfo(response.value, system).None? ==>
            url == Some(NoFileMessage) && o == Failed)
  {
    var now := Split(version, ".");
    if MajorMinor(now).Some? && response.Some? && ReleaseInfo(response.value, system).Some? {
      var info := ReleaseInfo(response.value, system).value;
      ReleasedKeepsLink(now, MajorMinor(now).value, response.value, info.0, skipDownload, notes, action, updateFails);
    }
  }

  /** Once the asset link is read, every way the check ends leaves it in `url`. */
  lemma ReleasedKeepsLink(now: seq<string>, a: Decimal, resp: Response, link: string, skipDownload: bool,
                          notes: Option<string>, action: string, updateFails: bool)
    ensures Released(now, a, resp, link, skipDownload, notes, action, updateFails).0 == Some(link)
  {
  }

  /** Once both versions are read: no update gives "d"; an update with readable notes ends
      without a download when asked to skip, declines unless the answer is "y", and
      otherwise runs the platform's updater; whatever raises ends in the handler. */
  lemma DecisionOutcome(now: seq<string>, a: Decimal, resp: Response, link: string, skipDownload: bool,
                        notes: Option<string>, action: string, updateFails: bool)
    requires resp.tagName.Some? && MajorMinor(Split(resp.tagName.value, ".")).Some?
    ensures var rel := Split(resp.tagName.value, ".");
      var d := Decide(now, rel, a, MajorMinor(rel).value);
      var (url, o) := Released(now, a, resp, link, skipDownload, notes, action, updateFails);
      url == Some(link)
      && (d == NoUpdate <==> o == Development)
      && (d == Fails ==> o == (if resp.message.None? then Raised else Failed))
      && (d == Update && notes.Some? && WhatsNew(notes.value).Some? ==>
            (skipDownload ==> o == SkippedDownload)
            && (!skipDownload && Lower(action) != "y" ==> o == Declined)
            && (!skipDownload && Lower(action) == "y" ==> o == (if !updateFails then Installing
                                                               else if resp.message.None? then Raised else Failed)))
  {
    var rel := Split(resp.tagName.value, ".");
    var d := Decide(now, rel, a, MajorMinor(rel).value);
    ReleasedKeepsLink(now, a, resp, link, skipDownload, notes, action, updateFails);
    if d == NoUpdate {
      assert Released(now, a, resp, link, skipDownload, notes, action, updateFails) == (Some(link), Development);
    } else {
      assert Released(now, a, resp, link, skipDownload, notes, action, updateFails).1 != Development;
    }
  }

  /** A running version equal to the release's tag, of two or three numeric parts, never
      reaches a decision: the check ends in the failure handler with the asset link kept,
      and raises when the answer has no "message". */
  lemma EqualShortVersionsRaise(version: string, skipDownload: bool, system: string, resp: Response,
                                notes: Option<string>, action: string, updateFails: bool)
    requires resp.tagName == Some(version)
    requires 2 <= |Split(version, ".")| <= 3 && NumericTail(Split(version, "."))
    requires MajorMinor(Split(version, ".")).Some? && ReleaseInfo(resp, system).Some?
    ensures CheckSpec(version, skipDownload, system, Some(resp), notes, action, updateFails)
      == (Some(ReleaseInfo(resp, system).value.0), if resp.message.None? then Raised else Failed)
  {
    var now := Split(version, ".");
    var a := MajorMinor(now).value;
    var link := ReleaseInfo(resp, system).value.0;
    assert CheckSpec(version, skipDownload, system, Some(resp), notes, action, updateFails)
      == Released(now, a, resp, link, skipDownload, notes, action, updateFails);
    EqualShortVersionsFail(now, a);
    assert Released(now, a, resp, link, skipDownload, notes, action, updateFails)
      == Failure(Some(link), Some(resp));
  }

  /** The check's state: the `url` attribute it keeps between calls. */
  class Updater {
    var url: Option<string>

    constructor ()
      ensures url == None
    {
      url := None;
    }

    /** `checkForUpdate`: reset `url`, read both versions and the asset, decide, and end
        in the failure handler whenever a step raises. */
    method CheckForUpdate(version: string, skipDownload: bool, system: string, response: Option<Response>,
                          notes: Option<string>, action: string, updateFails: bool) returns (o: Outcome)
      modifies this
      ensures (url, o) == CheckSpec(version, skipDownload, system, response, notes, action, updateFails)
    {
      url := None;
      var now := Split(version, ".");
      var a := MajorMinor(now);
      if a.None? || response.None? {
        o := Fail(None);
        return;
      }
      var resp := response.value;
      var info := ReleaseInfo(resp, system);
      if info.None? {
        o := Fail(None);
        return;
      }
      url := Some(info.value.0);
      if resp.tagName.None? {
        o := Fail(response);
        return;
      }
      var rel := Split(resp.tagName.value, ".");
      var b := MajorMinor(rel);
      if b.None? {
        o := Fail(response);
        return;
      }
      var decision := Decide(now, rel, a.value, b.value);
      if decision == Fails {
        o := Fail(response);
      } else if decision == NoUpdate {
        o := Development;
      } else if notes.None? || WhatsNew(notes.value).None? {
        o := Fail(response);
      } else if skipDownload {
        o := SkippedDownload;
      } else if Lower(action) != "y" {
        o := Declined;
      } else if updateFails {
        o := Fail(response);
      } else {
        o := Installing;
      }
    }

    /** The failure handler. */
    method Fail(resp: Option<Response>) returns (o: Outcome)
      modifies this
      ensures (url, o) == Failure(old(url), resp)
    {
      if url.None? {
        url := Some(NoFileMessage);
      }
      if resp.Some? && resp.value.message.None? {
        o := Raised;
      } else {
        o := Failed;
      }
    }
  }
}
