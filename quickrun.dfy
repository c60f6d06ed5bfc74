/**
 * The "run the operation under the cursor" command: find the nearest
 * operation header at or above the cursor's line and ask the window to open
 * the response view for it.
 */
module QuickRun {
  import opened Wrappers
  import opened OperationHeader

  /** A selection region, given by the buffer lines its start and its end lie on. */
  datatype Selection = Selection(first: nat, last: nat)

  /** Arguments of the `graphql_open_view` window command. */
  datatype OpenViewArgs = OpenViewArgs(operationName: Option<string>, view: int)

  /** The text of consecutive buffer lines, separated by line breaks. */
  function JoinLines(lines: seq<string>): string {
    if |lines| == 0 then ""
    else if |lines| == 1 then lines[0]
    else lines[0] + "\n" + JoinLines(lines[1..])
  }

  /** The buffer is split into lines: none of them holds a line break. */
  predicate SplitLines(lines: seq<string>) {
    forall i :: 0 <= i < |lines| ==> '\n' !in lines[i]
  }

  /** Every region lies within the buffer. */
  predicate WithinBuffer(lines: seq<string>, selection: seq<Selection>) {
    forall r :: r in selection ==> r.first <= r.last < |lines|
  }

  /** The name of the closest header among the first `k` lines, searching from line `k - 1` upwards. */
  function HeaderAbove(lines: seq<string>, k: nat): Option<string>
    requires k <= |lines|
  {
    if k == 0 then None
    else match Header(lines[k - 1])
      case Some(name) => Some(name)
      case None => HeaderAbove(lines, k - 1)
  }

  /** The cursor's own line first, then the lines strictly above it, closest first. */
  function NearestHeader(lines: seq<string>, k: nat): Option<string>
    requires k < |lines|
  {
    HeaderAbove(lines, k + 1)
  }

  /** What the command dispatches, as a function of the buffer, the selection and the window. */
  function QuickRunResult(lines: seq<string>, selection: seq<Selection>, hasWindow: bool, viewId: int): Option<OpenViewArgs>
    requires WithinBuffer(lines, selection)
  {
    if |selection| == 0 || !hasWindow then None
    else match NearestHeader(lines, selection[0].first)
      case None => None
      case Some(name) => Some(OpenViewArgs(Some(name), viewId))
  }

  /** The search finds nothing exactly when none of the first `k` lines is a header. */
  lemma {:induction false} HeaderAboveNone(lines: seq<string>, k: nat)
    requires k <= |lines|
    ensures HeaderAbove(lines, k).None? <==> forall j :: 0 <= j < k ==> Header(lines[j]).None?
  {
    if k > 0 {
      HeaderAboveNone(lines, k - 1);
    }
  }

  /**
   * What the search finds is the header of the LAST header line among the
   * first `k`: no header lies between it and line `k`.
   */
  lemma {:induction false} HeaderAboveFound(lines: seq<string>, k: nat) returns (j: nat)
    requires k <= |lines| && HeaderAbove(lines, k).Some?
    ensures j < k && Header(lines[j]) == HeaderAbove(lines, k)
    ensures forall i :: j < i < k ==> Header(lines[i]).None?
  {
    if Header(lines[k - 1]).Some? {
      j := k - 1;
    } else {
      j := HeaderAboveFound(lines, k - 1);
    }
  }

  /**
   * The search finds a header exactly when one of the first `k` lines is a
   * header, and then it is the name of the closest one to line `k`.
   */
  lemma HeaderAboveIsClosest(lines: seq<string>, k: nat)
    requires k <= |lines|
    ensures HeaderAbove(lines, k).None? <==> forall j :: 0 <= j < k ==> Header(lines[j]).None?
    ensures HeaderAbove(lines, k).Some? ==>
      exists j :: 0 <= j < k && Header(lines[j]) == HeaderAbove(lines, k)
                && forall i :: j < i < k ==> Header(lines[i]).None?
  {
    HeaderAboveNone(lines, k);
    if HeaderAbove(lines, k).Some? {
      var j := HeaderAboveFound(lines, k);
    }
  }

  /** The cursor's own line wins when it is a header; otherwise the closest header above it. */
  lemma NearestHeaderPrefersCursorLine(lines: seq<string>, k: nat)
    requires k < |lines|
    ensures Header(lines[k]).Some? ==> NearestHeader(lines, k) == Header(lines[k])
    ensures Header(lines[k]).None? ==> NearestHeader(lines, k) == HeaderAbove(lines, k)
  {
  }

  /** The first line of a region decides whether the region starts with a header. */
  lemma {:induction false} HeaderOfRegion(lines: seq<string>)
    requires |lines| > 0 && SplitLines(lines)
    ensures Header(JoinLines(lines)) == Header(lines[0])
  {
    if |lines| > 1 {
      HeaderStopsAtLineBreak(lines[0], JoinLines(lines[1..]));
      assert JoinLines(lines) == lines[0] + "\n" + JoinLines(lines[1..]);
    }
  }

  /**
   * What is dispatched names the closest header at or above the cursor's
   * line, and something is dispatched whenever there is such a header, a
   * selection and a window.
   */
  lemma QuickRunDispatchesClosestHeader(lines: seq<string>, selection: seq<Selection>, hasWindow: bool, viewId: int)
    requires WithinBuffer(lines, selection) && |selection| > 0
    ensures var k := selection[0].first;
      var d := QuickRunResult(lines, selection, hasWindow, viewId);
      && (d.Some? <==> hasWindow && exists j :: 0 <= j <= k && Header(lines[j]).Some?)
      && (d.Some? ==>
            exists j :: 0 <= j <= k && Header(lines[j]) == d.value.operationName
              && forall i :: j < i <= k ==> Header(lines[i]).None?)
  {
    assert selection[0] in selection;
    HeaderAboveIsClosest(lines, selection[0].first + 1);
  }

  /**
   * `GraphqlQuickRunQueryCommand.run`: match the cursor's line, then the
   * lines above it in reverse order until one matches; dispatch nothing
   * without a selection, without a header or without a window.
   */
  method QuickRunQuery(lines: seq<string>, selection: seq<Selection>, hasWindow: bool, viewId: int)
    returns (dispatched: Option<OpenViewArgs>)
    requires SplitLines(lines) && WithinBuffer(lines, selection)
    ensures dispatched == QuickRunResult(lines, selection, hasWindow, viewId)
    ensures dispatched.Some? ==> |selection| > 0 && hasWindow && dispatched.value.view == viewId
  {
    if |selection| == 0 {
      return None;
    }
    var region := selection[0];
    assert region in selection;
    HeaderOfRegion(lines[region.first..region.last + 1]);
    var found := Header(JoinLines(lines[region.first..region.last + 1]));
    var k := region.first;
    assert found.None? ==> NearestHeader(lines, k) == HeaderAbove(lines, k);
    assert found.Some? ==> NearestHeader(lines, k) == found;
    var upperLines := seq(k, j requires 0 <= j < k => lines[k - 1 - j]);
    if found.None? {
      var i := 0;
      while i < |upperLines|
        invariant 0 <= i <= |upperLines|
        invariant found.None? && HeaderAbove(lines, k) == HeaderAbove(lines, k - i)
      {
        assert upperLines[i] == lines[k - i - 1];
        found := Header(upperLines[i]);
        if found.Some? {
          assert found == HeaderAbove(lines, k);
          break;
        }
        assert HeaderAbove(lines, k - i) == HeaderAbove(lines, k - i - 1);
        i := i + 1;
      }
    }
    assert NearestHeader(lines, k) == found;
    if found.None? {
      return None;
    }
    if !hasWindow {
      return None;
    }
    dispatched := Some(OpenViewArgs(found, viewId));
  }

  /**
   * The command passes the captured text as it is: an anonymous header such
   * as "query {" is dispatched with the empty name, not with None.
   */
  lemma AnonymousHeaderDispatchesEmptyName()
    ensures QuickRunResult(["query {", "  user"], [Selection(1, 1)], true, 7) == Some(OpenViewArgs(Some(""), 7))
  {
    var lines := ["query {", "  user"];
    assert "query " <= lines[0];
    assert lines[0][|"query "|..] == "{";
    assert !("query " <= lines[1]) && !("mutation " <= lines[1]) by {
      assert lines[1][0] == ' ';
    }
    assert Header(lines[1]) == None;
    assert HeaderAbove(lines, 1) == Some("");
  }
}
