/** The devices / operating-systems panel (components/analytics/DevicesTable.tsx):
    the tab's data, the icon of a row, and the number of rows shown. */
module DevicesTable {
  import opened Common
  import opened Text
  import opened Tallies
  import opened Icons

  datatype Tab = DevicesTab | OsTab

  const Laptop: string := "\U{1F4BB}"
  const DesktopIcon: string := "\U{1F5A5}\U{FE0F}"
  const PhoneIcon: string := "\U{1F4F1}"
  const TabletIcon: string := "\U{1F4F2}"
  const WindowsIcon: string := "\U{1FA9F}"

  /** The devices branch of `getDeviceIcon`. */
  const DeviceRules: seq<Rule> := [
    Rule([Has("desktop"), Has("computer")], DesktopIcon),
    Rule([Has("mobile"), Has("phone")], PhoneIcon),
    Rule([Has("tablet")], TabletIcon)
  ]

  /** The operating-systems branch of `getDeviceIcon`. */
  const OsRules: seq<Rule> := [
    Rule([Has("windows")], WindowsIcon),
    Rule([Has("mac"), Has("ios")], "\U{1F34E}"),
    Rule([Has("android")], "\U{1F916}"),
    Rule([Has("linux")], "\U{1F427}"),
    Rule([Has("chrome")], "\U{1F310}")
  ]

  function RulesFor(tab: Tab): seq<Rule> {
    if tab == DevicesTab then DeviceRules else OsRules
  }

  /** `getDeviceIcon(name, type)`, matching on `name?.toLowerCase() || ""`. */
  function DeviceIcon(name: Option<string>, tab: Tab): (icon: string)
    ensures icon == Laptop <==>
              forall j :: 0 <= j < |RulesFor(tab)| ==> !Fires(RulesFor(tab)[j], Lower(OrElse(name, "")))
  {
    FallbackIff(RulesFor(tab), Lower(OrElse(name, "")), Laptop);
    Pick(RulesFor(tab), Lower(OrElse(name, "")), Laptop)
  }

  /** On the devices tab the icon is always one of four. */
  lemma DeviceTabIcons(name: Option<string>)
    ensures DeviceIcon(name, DevicesTab) in {DesktopIcon, PhoneIcon, TabletIcon, Laptop}
  {
    PickIsListed(DeviceRules, Lower(OrElse(name, "")), Laptop);
  }

  /** A missing name falls through to the laptop on both tabs. */
  lemma MissingNameIsLaptop(tab: Tab)
    ensures DeviceIcon(None, tab) == Laptop
  {
    NothingFiresOnEmpty(RulesFor(tab));
  }

  /** The desktop test comes first on the devices tab, the windows test on
      the systems tab: a name with either gets that icon whatever else it
      contains. */
  lemma FirstTestsWin(name: string)
    ensures Contains(Lower(name), "desktop") && name != "" ==> DeviceIcon(Some(name), DevicesTab) == DesktopIcon
    ensures Contains(Lower(name), "windows") && name != "" ==> DeviceIcon(Some(name), OsTab) == WindowsIcon
  {
    var n := Lower(OrElse(Some(name), ""));
    if name != "" {
      if Contains(Lower(name), "desktop") {
        assert Passes(DeviceRules[0].tests[0], n);
        FirstFiringWins(DeviceRules, n, Laptop, 0);
      }
      if Contains(Lower(name), "windows") {
        assert Passes(OsRules[0].tests[0], n);
        FirstFiringWins(OsRules, n, Laptop, 0);
      }
    }
  }

  /** `activeTab === "devices" ? devices : operatingSystems`. */
  function TabData(tab: Tab, devices: seq<Tally<string>>, systems: seq<Tally<string>>): (d: seq<Tally<string>>)
    ensures tab == DevicesTab ==> d == devices
    ensures tab != DevicesTab ==> d == systems
  {
    if tab == DevicesTab then devices else systems
  }

  /** `data.slice(0, 5)`. */
  function Rows(data: seq<Tally<string>>): (r: seq<Tally<string>>)
    ensures |r| == Min(|data|, 5) && r == data[..|r|]
  {
    Take(data, 5)
  }
}
