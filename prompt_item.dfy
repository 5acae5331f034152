/** A saved prompt in the sidebar: someone else's prompt is shown as a
    read-only "Standard" row; one's own opens the editor, where admins also
    get the switch that makes the prompt public. */
module PromptItem {
  import opened Wrappers

  datatype Prompt = Prompt(id: string, userId: string, name: string, content: string, sharing: string)

  /** The signed-in profile, as far as this row reads it. */
  datatype Viewer = Viewer(userId: string, userRole: Option<string>)

  /** `isReadOnly`: a profile is loaded and the prompt belongs to someone
      else. */
  predicate IsReadOnly(profile: Option<Viewer>, prompt: Prompt) {
    if profile.Some? then prompt.userId != profile.value.userId else false
  }

  /** `isAdmin`: `profile?.user_role === "admin"`. */
  predicate IsAdmin(profile: Option<Viewer>) {
    profile.Some? && profile.value.userRole == Some("admin")
  }

  /** The sharing switch is on exactly for "public". */
  predicate SwitchChecked(sharing: string) {
    sharing == "public"
  }

  /** The sharing value a switch change writes. */
  function OnCheckedChange(checked: bool): (sharing: string)
    ensures SwitchChecked(sharing) == checked
  {
    if checked then "public" else "private"
  }

  /** For "public" and "private" the switch shows and writes back the same
      value; any other sharing value reads as off and becomes "private". */
  lemma {:induction false} SwitchRoundTrip(sharing: string)
    ensures sharing == "public" || sharing == "private" ==> OnCheckedChange(SwitchChecked(sharing)) == sharing
    ensures sharing != "public" && sharing != "private" ==> OnCheckedChange(SwitchChecked(sharing)) == "private"
  {
  }

  /** The payload saved by the editor: exactly name, content and sharing. */
  datatype PromptUpdate = PromptUpdate(name: string, content: string, sharing: string)

  /** What the row renders. */
  datatype PromptView =
    | StandardRow(name: string)
    | Editor(sharingSwitch: Option<bool>, updateState: PromptUpdate)

  /** The row for a prompt, given the editor's current name, content and
      sharing. */
  function RenderPrompt(profile: Option<Viewer>, prompt: Prompt, name: string, content: string, sharing: string): (v: PromptView)
    ensures v.StandardRow? <==> IsReadOnly(profile, prompt)
    ensures v.StandardRow? ==> v.name == prompt.name
    ensures v.Editor? ==> v.updateState == PromptUpdate(name, content, sharing)
    ensures v.Editor? ==> (v.sharingSwitch.Some? <==> IsAdmin(profile))
    ensures v.Editor? && v.sharingSwitch.Some? ==> v.sharingSwitch.value == SwitchChecked(sharing)
  {
    if IsReadOnly(profile, prompt) then StandardRow(prompt.name)
    else Editor(if IsAdmin(profile) then Some(SwitchChecked(sharing)) else None,
                PromptUpdate(name, content, sharing))
  }

  /** Without a profile every prompt is editable; an admin looking at
      someone else's prompt gets the read-only row and no switch. */
  lemma {:induction false} ReadOnlyCases(prompt: Prompt, viewer: Viewer)
    ensures RenderPrompt(None, prompt, prompt.name, prompt.content, prompt.sharing).Editor?
    ensures viewer.userId != prompt.userId ==>
              RenderPrompt(Some(viewer), prompt, prompt.name, prompt.content, prompt.sharing) == StandardRow(prompt.name)
  {
  }
}
