/**
 * Bridge: a window (the abstraction) draws itself through a window system
 * API (the implementation). Either kind of window works with any API.
 */
module Bridge {
  import opened Wrappers

  /** The implementations of `WindowAPI`. */
  datatype WindowApi = WindowsApi | MacOsApi | XWindowSystemApi

  /** `create_window` of each API. */
  function CreateWindow(api: WindowApi): (name: string)
    ensures |name| > 0
  {
    match api
    case WindowsApi => "Windows"
    case MacOsApi => "Mac OS"
    case XWindowSystemApi => "UNIX"
  }

  /** Reads back which API produced a `create_window` result. */
  function ApiOfName(name: string): (r: Option<WindowApi>)
    ensures r.Some? ==> CreateWindow(r.value) == name
  {
    if name == "Windows" then Some(WindowsApi)
    else if name == "Mac OS" then Some(MacOsApi)
    else if name == "UNIX" then Some(XWindowSystemApi)
    else None
  }

  /** Every API is recognised from its own name, so the three names differ. */
  lemma ApiRoundTrip(api: WindowApi)
    ensures ApiOfName(CreateWindow(api)) == Some(api)
  {
  }

  /** The abstractions: each window holds the API it was constructed with. */
  datatype Window = Dialog(api: WindowApi) | Dashboard(api: WindowApi)

  const DialogPrefix: string := "Dialog on system: "
  const DashboardPrefix: string := "Dashboard on system: "

  /** The text a window kind puts in front of the API's name. */
  function Prefix(w: Window): string
  {
    match w
    case Dialog(_) => DialogPrefix
    case Dashboard(_) => DashboardPrefix
  }

  /** `draw_window` of `Dialog` and of `Dashboard`. */
  function DrawWindow(w: Window): (s: string)
    ensures |s| == |Prefix(w)| + |CreateWindow(w.api)|
    ensures s[..|Prefix(w)|] == Prefix(w)
    ensures s[|Prefix(w)|..] == CreateWindow(w.api)
  {
    match w
    case Dialog(api) => DialogPrefix + CreateWindow(api)
    case Dashboard(api) => DashboardPrefix + CreateWindow(api)
  }

  /** Reads back the window and API from a drawn line. */
  function ParseWindow(s: string): (r: Option<Window>)
  {
    if |s| >= |DialogPrefix| && s[..|DialogPrefix|] == DialogPrefix then
      match ApiOfName(s[|DialogPrefix|..])
      case Some(api) => Some(Dialog(api))
      case None => None
    else if |s| >= |DashboardPrefix| && s[..|DashboardPrefix|] == DashboardPrefix then
      match ApiOfName(s[|DashboardPrefix|..])
      case Some(api) => Some(Dashboard(api))
      case None => None
    else
      None
  }

  /** A drawn window names both its kind and its API. */
  lemma DrawRoundTrip(w: Window)
    ensures ParseWindow(DrawWindow(w)) == Some(w)
  {
    var s := DrawWindow(w);
    ApiRoundTrip(w.api);
    if w.Dashboard? {
      assert s[1] != DialogPrefix[1];
    }
  }

  /** The drawn text is determined by, and determines, the pair (window kind, API). */
  lemma DrawWindowInjective(w: Window, v: Window)
    ensures DrawWindow(w) == DrawWindow(v) <==> w == v
  {
    if DrawWindow(w) == DrawWindow(v) {
      DrawRoundTrip(w);
      DrawRoundTrip(v);
    }
  }

  /** The demonstration: two dialogs and two dashboards on different systems. */
  function Client(): (lines: seq<string>)
    ensures |lines| == 4
  {
    [ DrawWindow(Dialog(MacOsApi)), DrawWindow(Dialog(WindowsApi)),
      DrawWindow(Dashboard(WindowsApi)), DrawWindow(Dashboard(XWindowSystemApi)) ]
  }

  /** The lines of the demonstration. */
  lemma ClientLines()
    ensures Client() == [ "Dialog on system: Mac OS", "Dialog on system: Windows",
                          "Dashboard on system: Windows", "Dashboard on system: UNIX" ]
  {
    assert DrawWindow(Dialog(MacOsApi)) == "Dialog on system: Mac OS";
    assert DrawWindow(Dialog(WindowsApi)) == "Dialog on system: Windows";
    assert DrawWindow(Dashboard(WindowsApi)) == "Dashboard on system: Windows";
    assert DrawWindow(Dashboard(XWindowSystemApi)) == "Dashboard on system: UNIX";
  }
}
