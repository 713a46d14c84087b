/** The moderation settings (`mod_settings`) and their refresh from the
    backend, which merges the fetched object over the current one as
    Python's `dict.update` does. */
module Settings {
  import opened Wrappers

  datatype ModSettings = ModSettings(
    allowLinks: bool,
    allowForwards: bool,
    maxMessagesPerMinute: int,
    muteDurationMinutes: int,
    autoDeleteLinks: bool,
    welcomeMessage: string,
    rulesMessage: string)

  /** The text of the default welcome before its `{website}` placeholder. */
  const WelcomeLead := "👋 Welcome " + "to EarnQuest! " + "Earn money " + "completing tasks at "

  /** The settings the bot starts with. */
  const Defaults := ModSettings(
    allowLinks := false,
    allowForwards := true,
    maxMessagesPerMinute := 5,
    muteDurationMinutes := 30,
    autoDeleteLinks := true,
    welcomeMessage := WelcomeLead + "{website}",
    rulesMessage := "📜 **Group Rules:**\n" + "1. No spam\n" + "2. No links\n" + "3. Be respectful\n" + "4. English only")

  /** The settings object fetched from the backend, already decoded: a key
      the backend left out is `None`. */
  datatype Patch = Patch(
    allowLinks: Option<bool>,
    allowForwards: Option<bool>,
    maxMessagesPerMinute: Option<int>,
    muteDurationMinutes: Option<int>,
    autoDeleteLinks: Option<bool>,
    welcomeMessage: Option<string>,
    rulesMessage: Option<string>)

  const EmptyPatch := Patch(None, None, None, None, None, None, None)

  /** `settings.update(patch)`: every key present in the patch overwrites the
      current value, every other key keeps it. */
  function Merge(s: ModSettings, p: Patch): ModSettings {
    ModSettings(
      p.allowLinks.GetOr(s.allowLinks),
      p.allowForwards.GetOr(s.allowForwards),
      p.maxMessagesPerMinute.GetOr(s.maxMessagesPerMinute),
      p.muteDurationMinutes.GetOr(s.muteDurationMinutes),
      p.autoDeleteLinks.GetOr(s.autoDeleteLinks),
      p.welcomeMessage.GetOr(s.welcomeMessage),
      p.rulesMessage.GetOr(s.rulesMessage))
  }

  function Later<T>(first: Option<T>, second: Option<T>): Option<T> {
    if second.Some? then second else first
  }

  /** The patch that two successive updates amount to: the later one wins on
      every key it carries. */
  function Overlay(p: Patch, q: Patch): Patch {
    Patch(
      Later(p.allowLinks, q.allowLinks),
      Later(p.allowForwards, q.allowForwards),
      Later(p.maxMessagesPerMinute, q.maxMessagesPerMinute),
      Later(p.muteDurationMinutes, q.muteDurationMinutes),
      Later(p.autoDeleteLinks, q.autoDeleteLinks),
      Later(p.welcomeMessage, q.welcomeMessage),
      Later(p.rulesMessage, q.rulesMessage))
  }

  /** An empty response object changes nothing. */
  lemma MergeEmpty(s: ModSettings)
    ensures Merge(s, EmptyPatch) == s
  {
  }

  /** Applying the same fetched object twice is the same as applying it once. */
  lemma MergeIdempotent(s: ModSettings, p: Patch)
    ensures Merge(Merge(s, p), p) == Merge(s, p)
  {
  }

  /** Two refreshes in a row amount to one refresh with their overlay. */
  lemma MergeTwice(s: ModSettings, p: Patch, q: Patch)
    ensures Merge(Merge(s, p), q) == Merge(s, Overlay(p, q))
  {
  }

  /** The outcome of `GET /bot/settings/`. */
  datatype SettingsFetch = FetchFailed | Fetched(status: int, patch: Patch)
}
