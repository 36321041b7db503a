/** Statistics.String: the one-line human-readable summary of the daemon's statistics. */
module Rendering {
  import opened Errors
  import opened Decimal
  import opened Envelopes

  const DownloadTail := " KB/s DL, "
  const UploadTail := " KB/s UL, "
  const CountTail := " torrents ("
  const ActiveTail := " active, "
  const PausedTail := " paused)"

  /** `fmt.Sprintf("%v KB/s DL, %v KB/s UL, %v torrents (%v active, %v paused)", ...)`
      of five integers. */
  function Layout(d: int, u: int, t: int, a: int, p: int): string {
    IntToString(d) + DownloadTail + IntToString(u) + UploadTail + IntToString(t) + CountTail
      + IntToString(a) + ActiveTail + IntToString(p) + PausedTail
  }

  /** Statistics.String. Every rendered line reads back as the two speeds in whole KB/s,
      divided by 1024 and truncated toward zero, and the three torrent counts as they are:
      nothing is lost or reordered beyond the division. */
  function Render(s: Statistics): (r: string)
    ensures ParseRendered(r) == Some(Shown(
      GoDiv(s.downloadSpeed, 1024), GoDiv(s.uploadSpeed, 1024),
      s.torrentCount, s.activeTorrentCount, s.pausedTorrentcount))
  {
    var d, u := GoDiv(s.downloadSpeed, 1024), GoDiv(s.uploadSpeed, 1024);
    LayoutReadsBack(d, u, s.torrentCount, s.activeTorrentCount, s.pausedTorrentcount);
    Layout(d, u, s.torrentCount, s.activeTorrentCount, s.pausedTorrentcount)
  }

  /** The five numbers a rendered line shows, in the order it shows them. */
  datatype Shown = Shown(downloadKBs: int, uploadKBs: int, torrents: int, active: int, paused: int)

  /** `lit` at the front of `s`, and what follows it. */
  function Expect(lit: string, s: string): (r: Option<string>)
    ensures r.Some? ==> lit + r.value == s
  {
    if |lit| <= |s| && s[..|lit|] == lit then Some(s[|lit|..]) else None
  }

  /** A number followed by the literal `tail`, read off the front of `s`. */
  function ReadField(tail: string, s: string): Option<(int, string)> {
    var (n, rest) :- ParseInt(s);
    var after :- Expect(tail, rest);
    Some((n, after))
  }

  /** Reads a rendered line back into the numbers it shows; None if the line does not
      have the layout. */
  function ParseRendered(line: string): Option<Shown> {
    var (dl, r1) :- ReadField(DownloadTail, line);
    var (ul, r2) :- ReadField(UploadTail, r1);
    var (count, r3) :- ReadField(CountTail, r2);
    var (active, r4) :- ReadField(ActiveTail, r3);
    var (paused, r5) :- ReadField(PausedTail, r4);
    if r5 == [] then Some(Shown(dl, ul, count, active, paused)) else None
  }

  lemma ExpectPrefix(lit: string, rest: string)
    ensures Expect(lit, lit + rest) == Some(rest)
  {
    assert (lit + rest)[..|lit|] == lit;
    assert (lit + rest)[|lit|..] == rest;
  }

  /** A number followed by a tail that starts with a space reads back as that number. */
  lemma ReadFieldOf(n: int, tail: string, rest: string)
    requires |tail| > 0 && tail[0] == ' '
    ensures ReadField(tail, IntToString(n) + tail + rest) == Some((n, rest))
  {
    var line := IntToString(n) + tail + rest;
    assert line == IntToString(n) + (tail + rest);
    ParseIntToString(n, tail + rest);
    assert ParseInt(line) == Some((n, tail + rest));
    ExpectPrefix(tail, rest);
  }

  /** A laid-out line, grouped from the right: each number with its tail, then the rest
      of the line. */
  lemma LayoutGrouped(d: int, u: int, t: int, a: int, p: int)
    ensures Layout(d, u, t, a, p) ==
      IntToString(d) + DownloadTail + (
      IntToString(u) + UploadTail + (
      IntToString(t) + CountTail + (
      IntToString(a) + ActiveTail + (
      IntToString(p) + PausedTail + []))))
  {
    Regrouped(IntToString(d), IntToString(u), IntToString(t), IntToString(a), IntToString(p));
  }

  /** The same regrouping for any five strings between the tails. */
  lemma Regrouped(ds: string, us: string, ts: string, acs: string, ps: string)
    ensures ds + DownloadTail + us + UploadTail + ts + CountTail + acs + ActiveTail + ps + PausedTail
      == ds + DownloadTail + (us + UploadTail + (ts + CountTail + (acs + ActiveTail + (ps + PausedTail + []))))
  {
    var r4 := ps + PausedTail;
    assert r4 + [] == r4;
    var r3 := acs + ActiveTail + r4;
    var r2 := ts + CountTail + r3;
    var r1 := us + UploadTail + r2;
    assert ds + DownloadTail + us + UploadTail + ts + CountTail + acs + ActiveTail + ps + PausedTail
        == ds + DownloadTail + us + UploadTail + ts + CountTail + acs + ActiveTail + r4;
    assert ds + DownloadTail + us + UploadTail + ts + CountTail + acs + ActiveTail + r4
        == ds + DownloadTail + us + UploadTail + ts + CountTail + r3;
    assert ds + DownloadTail + us + UploadTail + ts + CountTail + r3
        == ds + DownloadTail + us + UploadTail + r2;
    assert ds + DownloadTail + us + UploadTail + r2 == ds + DownloadTail + r1;
  }

  /** The five numbers of a laid-out line read back in order. */
  lemma LayoutReadsBack(d: int, u: int, t: int, a: int, p: int)
    ensures ParseRendered(Layout(d, u, t, a, p)) == Some(Shown(d, u, t, a, p))
  {
    var r4 := IntToString(p) + PausedTail + [];
    var r3 := IntToString(a) + ActiveTail + r4;
    var r2 := IntToString(t) + CountTail + r3;
    var r1 := IntToString(u) + UploadTail + r2;
    LayoutGrouped(d, u, t, a, p);
    ReadFieldOf(d, DownloadTail, r1);
    ReadFieldOf(u, UploadTail, r2);
    ReadFieldOf(t, CountTail, r3);
    ReadFieldOf(a, ActiveTail, r4);
    ReadFieldOf(p, PausedTail, []);
  }

  /** Whatever ReadField accepts is the `%v` text of its number, the tail, and the rest. */
  lemma ReadFieldCanonical(tail: string, s: string, n: int, after: string)
    requires ReadField(tail, s) == Some((n, after))
    ensures s == IntToString(n) + tail + after
  {
    var (m, rest) := ParseInt(s).value;
    ParseIntCanonical(s, m, rest);
  }

  /** The only line that reads back as five numbers is the one laid out from them. */
  lemma ParseRenderedCanonical(line: string, shown: Shown)
    requires ParseRendered(line) == Some(shown)
    ensures line == Layout(shown.downloadKBs, shown.uploadKBs, shown.torrents, shown.active, shown.paused)
  {
    var (d, r1) := ReadField(DownloadTail, line).value;
    var (u, r2) := ReadField(UploadTail, r1).value;
    var (t, r3) := ReadField(CountTail, r2).value;
    var (a, r4) := ReadField(ActiveTail, r3).value;
    var (p, r5) := ReadField(PausedTail, r4).value;
    ReadFieldCanonical(DownloadTail, line, d, r1);
    ReadFieldCanonical(UploadTail, r1, u, r2);
    ReadFieldCanonical(CountTail, r2, t, r3);
    ReadFieldCanonical(ActiveTail, r3, a, r4);
    ReadFieldCanonical(PausedTail, r4, p, r5);
    LayoutGrouped(d, u, t, a, p);
  }

  /** Render's read-back property pins the line down: any line that reads back as a
      rendered one is that line, so every number appears exactly as `%v` writes it (no
      padding zeros, no "-0"). */
  lemma RenderDetermined(s: Statistics, line: string)
    requires ParseRendered(line) == ParseRendered(Render(s))
    ensures line == Render(s)
  {
    ParseRenderedCanonical(line, ParseRendered(Render(s)).value);
  }

  /** A speed of -1023 bytes per second shows as 0 KB/s, not -0. */
  lemma RenderSmallNegative()
    ensures Render(Statistics(-1023, 0, 0, 0, 0)) == Render(Statistics(0, 0, 0, 0, 0))
  {
  }

  /** A megabyte per second downloading shows as 1024 KB/s; a zero speed as 0. */
  lemma RenderExample()
    ensures Render(Statistics(1048576, 0, 3, 1, 2))
         == "1024 KB/s DL, 0 KB/s UL, 3 torrents (1 active, 2 paused)"
  {
    assert GoDiv(1048576, 1024) == 1024;
    assert IntToString(1024) == "1024" by {
      assert NatToString(10) == "10";
      assert NatToString(102) == "102";
    }
    assert IntToString(0) == "0";
    assert IntToString(3) == "3";
    assert IntToString(1) == "1";
    assert IntToString(2) == "2";
    // String equality is extensional: the expected line is assembled one piece at a time.
    assert "1024" + DownloadTail == "1024 KB/s DL, ";
    assert "1024 KB/s DL, " + "0" == "1024 KB/s DL, 0";
    assert "1024 KB/s DL, 0" + UploadTail == "1024 KB/s DL, 0 KB/s UL, ";
    assert "1024 KB/s DL, 0 KB/s UL, " + "3" == "1024 KB/s DL, 0 KB/s UL, 3";
    assert "1024 KB/s DL, 0 KB/s UL, 3" + CountTail == "1024 KB/s DL, 0 KB/s UL, 3 torrents (";
    assert "1024 KB/s DL, 0 KB/s UL, 3 torrents (" + "1" == "1024 KB/s DL, 0 KB/s UL, 3 torrents (1";
    assert "1024 KB/s DL, 0 KB/s UL, 3 torrents (1" + ActiveTail
        == "1024 KB/s DL, 0 KB/s UL, 3 torrents (1 active, ";
    assert "1024 KB/s DL, 0 KB/s UL, 3 torrents (1 active, " + "2"
        == "1024 KB/s DL, 0 KB/s UL, 3 torrents (1 active, 2";
    assert "1024 KB/s DL, 0 KB/s UL, 3 torrents (1 active, 2" + PausedTail
        == "1024 KB/s DL, 0 KB/s UL, 3 torrents (1 active, 2 paused)";
  }

  /** A speed just under 1 KB/s, either way, shows as 0: the division truncates, it does
      not round down. */
  lemma RenderTruncates()
    ensures GoDiv(1023, 1024) == 0 && GoDiv(-1023, 1024) == 0 && GoDiv(-1024, 1024) == -1
  {
  }
}
