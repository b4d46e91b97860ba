/**
 The service-unit menu, the label shown for a selection and the choice of the
 conversation's final message: a join-group link when the unit's group link is
 configured and non-empty, a generic "pick a sub unit next time" text otherwise.
 */
module Units {
  import opened Wrappers

  /** The group-chat links read from the environment at start-up; each may be unset. */
  datatype LinkConfig = LinkConfig(
    registrationForm: string,
    bfc: Option<string>,
    database: Option<string>,
    epistles: Option<string>,
    followUp: Option<string>,
    media: Option<string>,
    welfare: Option<string>,
    worshippers: Option<string>)

  /** A button of the unit menu: the caption the user sees and the callback data it reports. */
  datatype Button = Button(caption: string, data: string)

  /** The eight buttons of the unit menu, row by row. */
  const UnitMenu: seq<Button> := [
    Button("BFC⛪", "bfc"), Button("Media📸", "media"),
    Button("Living Epistles📜", "living_epistles"), Button("True Worshippers🎵", "true_worshippers"),
    Button("Welfare💖", "welfare"), Button("Database 📝", "database"),
    Button("Follow Up🤗", "follow_up"), Button("Not sure yet", "not_sure")
  ]

  /** The callback data of the units that may have a group chat. */
  const LinkedUnits: set<string> :=
    {"bfc", "media", "living_epistles", "true_worshippers", "welfare", "database", "follow_up"}

  /** `selection_map`: callback data to display label. */
  function SelectionMap(): (sm: map<string, string>)
    ensures sm.Keys == LinkedUnits + {"not_sure"}
  {
    map[
      "bfc" := "BFC⛪",
      "media" := "Media📸",
      "living_epistles" := "Living Epistles📜",
      "true_worshippers" := "True Worshippers🎵",
      "welfare" := "Welfare💖",
      "database" := "Database 📝",
      "follow_up" := "Follow Up🤗",
      "not_sure" := "Not sure yet"
    ]
  }

  /** `GC_LINKS`: callback data to the unit's configured group link; "not_sure" has no entry. */
  function GcLinks(cfg: LinkConfig): (links: map<string, Option<string>>)
    ensures links.Keys == LinkedUnits
    ensures "not_sure" !in links
  {
    map[
      "bfc" := cfg.bfc,
      "media" := cfg.media,
      "living_epistles" := cfg.epistles,
      "true_worshippers" := cfg.worshippers,
      "welfare" := cfg.welfare,
      "database" := cfg.database,
      "follow_up" := cfg.followUp
    ]
  }

  /** The label echoed back for a selection: its `selection_map` entry, else the raw data. */
  function ChosenUnit(data: string): (shown: string)
    ensures data in LinkedUnits + {"not_sure"} ==> shown == SelectionMap()[data]
    ensures data !in LinkedUnits + {"not_sure"} ==> shown == data
  {
    var sm := SelectionMap();
    if data in sm then sm[data] else data
  }

  /** `GC_LINKS.get(data)`: the link for `data`, or None when it is unset or `data` is not a key. */
  function GroupLink(cfg: LinkConfig, data: string): (link: Option<string>)
    ensures data !in LinkedUnits ==> link == None
    ensures data in LinkedUnits ==> link == GcLinks(cfg)[data]
  {
    var links := GcLinks(cfg);
    if data in links then links[data] else None
  }

  /** The Python truth value of an optional string: set and non-empty. */
  predicate Truthy(link: Option<string>): (b: bool)
    ensures link == None ==> !b
    ensures link == Some("") ==> !b
    ensures link.Some? && |link.value| > 0 ==> b
  {
    link.Some? && link.value != ""
  }

  /** The two final messages step 3 chooses between. */
  datatype Final = JoinGroup(unit: string, link: string) | PickNextTime

  /** The final message for a selection: the join link exactly when the link is truthy. */
  function FinalMessage(cfg: LinkConfig, data: string): (f: Final)
    ensures f.JoinGroup? <==> Truthy(GroupLink(cfg, data))
    ensures f.JoinGroup? ==> f.link == GroupLink(cfg, data).value && f.link != "" && f.unit == ChosenUnit(data)
    ensures data !in LinkedUnits ==> f == PickNextTime
  {
    var link := GroupLink(cfg, data);
    if Truthy(link) then JoinGroup(ChosenUnit(data), link.value) else PickNextTime
  }

  /** Every menu button's data is a key of `selection_map`, so the echoed label is the button's own caption. */
  lemma MenuLabelsEchoed()
    ensures forall i :: 0 <= i < |UnitMenu| ==> UnitMenu[i].data in SelectionMap()
    ensures forall i :: 0 <= i < |UnitMenu| ==> ChosenUnit(UnitMenu[i].data) == UnitMenu[i].caption
  {
  }

  /** Data outside `selection_map` is echoed unchanged and always gets the fallback text. */
  lemma UnknownDataEchoed(cfg: LinkConfig, data: string)
    requires data !in LinkedUnits && data != "not_sure"
    ensures ChosenUnit(data) == data
    ensures FinalMessage(cfg, data) == PickNextTime
  {
  }

  /** Every menu button except "Not sure yet" names a unit of `GC_LINKS`. */
  lemma MenuUnitsLinked()
    ensures forall i :: 0 <= i < |UnitMenu| && UnitMenu[i].data != "not_sure" ==> UnitMenu[i].data in LinkedUnits
    ensures |UnitMenu| == 8 && UnitMenu[7].data == "not_sure"
  {
  }

  /** The join message for a linked unit carries exactly the configured link. */
  lemma ConfiguredLinkSent(cfg: LinkConfig, link: string)
    requires link != ""
    ensures cfg.bfc == Some(link) ==> FinalMessage(cfg, "bfc") == JoinGroup("BFC⛪", link)
    ensures cfg.media == Some(link) ==> FinalMessage(cfg, "media") == JoinGroup("Media📸", link)
    ensures cfg.epistles == Some(link) ==> FinalMessage(cfg, "living_epistles") == JoinGroup("Living Epistles📜", link)
    ensures cfg.worshippers == Some(link) ==> FinalMessage(cfg, "true_worshippers") == JoinGroup("True Worshippers🎵", link)
    ensures cfg.welfare == Some(link) ==> FinalMessage(cfg, "welfare") == JoinGroup("Welfare💖", link)
    ensures cfg.database == Some(link) ==> FinalMessage(cfg, "database") == JoinGroup("Database 📝", link)
    ensures cfg.followUp == Some(link) ==> FinalMessage(cfg, "follow_up") == JoinGroup("Follow Up🤗", link)
  {
  }

  /** "Not sure yet", an unset link and an empty link all give the fallback text. */
  lemma FallbackCases(cfg: LinkConfig, data: string)
    ensures data == "not_sure" ==> FinalMessage(cfg, data) == PickNextTime
    ensures GroupLink(cfg, data) == None ==> FinalMessage(cfg, data) == PickNextTime
    ensures GroupLink(cfg, data) == Some("") ==> FinalMessage(cfg, data) == PickNextTime
    ensures !Truthy(GroupLink(cfg, data)) ==> FinalMessage(cfg, data) == PickNextTime
  {
  }
}
