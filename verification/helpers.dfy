/** The dashboard's small arithmetic helpers (internal/tui/helpers.go). */
module Helpers {

  /** truncate(s, max): s itself when it fits, otherwise its first max-3
      bytes followed by "...". Go panics on the negative slice bound when a
      string longer than max is cut to a max below 3, hence the requirement. */
  function Truncate(s: string, max: int): (r: string)
    requires |s| <= max || 3 <= max
    ensures |s| <= max ==> r == s
    ensures |s| > max ==> |r| == max && r[..max - 3] == s[..max - 3] && r[max - 3..] == "..."
    ensures |r| <= max
  {
    if |s| <= max then s else s[..max - 3] + "..."
  }

  /** int(float64(height) * 0.4): Go's conversion truncates toward zero. For
      the heights a terminal reports (0 up to 2^51), the float product rounds
      to a value whose integer part is exactly floor(2 * height / 5). */
  function BottomPanelHeight(height: int): (b: int)
    ensures height >= 0 ==> 5 * b <= 2 * height < 5 * (b + 1)
    ensures height < 0 ==> b <= 0
  {
    if height >= 0 then (2 * height) / 5 else -((-2 * height) / 5)
  }

  /** calculateVisibleLogLines: the log panel's rows minus 12 rows of chrome,
      never fewer than 3. */
  function VisibleLogLines(height: int): (v: int)
    ensures v >= 3
    ensures v == 3 || v == BottomPanelHeight(height) - 12
    ensures v >= BottomPanelHeight(height) - 12
  {
    var visible := BottomPanelHeight(height) - 12;
    if visible < 3 then 3 else visible
  }

  /** calculateMaxScroll: the largest scroll offset that still fills the
      panel, 0 when every log line fits. */
  function MaxScroll(logCount: int, height: int): (r: int)
    ensures r >= 0
    ensures r + VisibleLogLines(height) >= logCount
    ensures r == 0 || r + VisibleLogLines(height) == logCount
  {
    var m := logCount - VisibleLogLines(height);
    if m < 0 then 0 else m
  }
}
