/**
 * The editing session: what the page does at startup, on every content
 * change, on reset, and with the scroll-sync toggle.
 *
 * The editing widget is reduced to its value (`content`): setting it, by the
 * user or by the page, notifies the content-change handler. Rendering is the
 * injected function `render` (markdown conversion followed by sanitising);
 * the model only records that its result for the current content is what
 * the output region shows.
 */
module SessionController {
  import opened Js
  import opened SessionStore
  import ScrollSync
  import Template

  /** Reset asks for confirmation exactly when the content was edited since
      the last programmatic set, or differs from the template now. */
  predicate NeedsConfirmation(hasEdited: bool, content: string, template: string)
  {
    hasEdited || content != template
  }

  class Session {
    const render: string -> string
    /** The built-in template, `Template.DefaultInput` on the page. */
    const defaultInput: string

    /** The editing widget's value. */
    var content: string
    var hasEdited: bool
    var scrollBarSync: bool
    /** The checked state of the sync-scroll checkbox. */
    var syncCheckbox: bool
    var store: Store
    /** What the output region shows. */
    var output: string
    /** Scroll offsets of the editor column and the preview column. */
    var editorColumnScroll: real
    var previewColumnScroll: real

    /** The output and the persisted copy both follow the current content. */
    predicate Mirrored()
      reads this
    {
      LoadLastContent(store) == Some(Text(content)) && output == render(content)
    }

    /** Page load: install the persisted content, or the template when there
        is none, then the persisted scroll-sync setting, disabled when unset. */
    constructor Startup(persisted: Store, render: string -> string, defaultInput: string)
      requires ContentIsText(persisted)
      ensures this.render == render && this.defaultInput == defaultInput
      ensures content == StartupContent(persisted, defaultInput)
      ensures !hasEdited
      ensures scrollBarSync == syncCheckbox == StartupScrollSync(persisted)
      ensures store == SaveLastContent(persisted, content)
      ensures editorColumnScroll == 0.0 && previewColumnScroll == 0.0
      ensures Mirrored()
    {
      this.render := render;
      this.defaultInput := defaultInput;
      content := "";
      hasEdited, scrollBarSync, syncCheckbox := false, false, false;
      store := persisted;
      output := "";
      editorColumnScroll, previewColumnScroll := 0.0, 0.0;
      new;
      var lastContent := LoadLastContent(store);
      if lastContent.Some? && Truthy(lastContent.value) {
        PresetValue(lastContent.value.text);
      } else {
        PresetValue(defaultInput);
      }
      var scrollBarSettings := StartupScrollSync(store);
      InitScrollBarSync(scrollBarSettings);
    }

    /** The widget reports a change: the edited flag is raised when the
        content differs from the template (never lowered), the content is
        rendered and saved. */
    method OnContentChange()
      modifies this
      ensures hasEdited == (old(hasEdited) || content != defaultInput)
      ensures old(hasEdited) ==> hasEdited
      ensures output == render(content)
      ensures store == SaveLastContent(old(store), content)
      ensures Mirrored()
      ensures content == old(content) && scrollBarSync == old(scrollBarSync)
      ensures syncCheckbox == old(syncCheckbox)
      ensures editorColumnScroll == old(editorColumnScroll)
      ensures previewColumnScroll == old(previewColumnScroll)
    {
      var changed := content != defaultInput;
      if changed {
        hasEdited := true;
      }
      var value := content;
      output := render(value);
      store := SaveLastContent(store, value);
    }

    /** The user changes the text to `text`; the widget notifies. */
    method UserEdit(text: string)
      modifies this
      ensures content == text
      ensures hasEdited == (old(hasEdited) || text != defaultInput)
      ensures output == render(text)
      ensures store == SaveLastContent(old(store), text)
      ensures Mirrored()
      ensures scrollBarSync == old(scrollBarSync) && syncCheckbox == old(syncCheckbox)
      ensures editorColumnScroll == old(editorColumnScroll)
      ensures previewColumnScroll == old(previewColumnScroll)
    {
      content := text;
      OnContentChange();
    }

    /** The page sets the text. The widget's notification runs the change
        handler first; the edited flag is cleared after it, so it ends false
        whatever the handler did. */
    method PresetValue(value: string)
      modifies this
      ensures content == value
      ensures !hasEdited
      ensures output == render(value)
      ensures store == SaveLastContent(old(store), value)
      ensures Mirrored()
      ensures scrollBarSync == old(scrollBarSync) && syncCheckbox == old(syncCheckbox)
      ensures editorColumnScroll == old(editorColumnScroll)
      ensures previewColumnScroll == old(previewColumnScroll)
    {
      content := value;
      OnContentChange();
      hasEdited := false;
    }

    /** The reset button. `confirmed` is the user's answer, consulted only
        when a confirmation is needed; `asked` says whether it was. Declining
        changes nothing; otherwise the template comes back, the flag is
        cleared and both columns scroll to the top. */
    method Reset(confirmed: bool) returns (asked: bool)
      modifies this
      ensures asked == NeedsConfirmation(old(hasEdited), old(content), defaultInput)
      ensures asked && !confirmed ==>
                content == old(content) && hasEdited == old(hasEdited)
                && output == old(output) && store == old(store)
                && editorColumnScroll == old(editorColumnScroll)
                && previewColumnScroll == old(previewColumnScroll)
      ensures !asked || confirmed ==>
                content == defaultInput && !hasEdited
                && output == render(defaultInput)
                && store == SaveLastContent(old(store), defaultInput)
                && editorColumnScroll == 0.0 && previewColumnScroll == 0.0
      ensures scrollBarSync == old(scrollBarSync) && syncCheckbox == old(syncCheckbox)
      ensures old(Mirrored()) ==> Mirrored()
    {
      var changed := content != defaultInput;
      asked := hasEdited || changed;
      if asked {
        if !confirmed {
          return;
        }
      }
      PresetValue(defaultInput);
      editorColumnScroll := 0.0;
      previewColumnScroll := 0.0;
    }

    /** Startup's setting of the toggle and its checkbox. */
    method InitScrollBarSync(settings: bool)
      modifies this
      ensures syncCheckbox == settings && scrollBarSync == settings
      ensures content == old(content) && hasEdited == old(hasEdited)
      ensures output == old(output) && store == old(store)
      ensures editorColumnScroll == old(editorColumnScroll)
      ensures previewColumnScroll == old(previewColumnScroll)
    {
      syncCheckbox := settings;
      scrollBarSync := settings;
    }

    /** The user ticks or clears the checkbox: the toggle follows it and the
        new setting is saved, in its own slot. */
    method OnSyncCheckboxChange(checked: bool)
      modifies this
      ensures syncCheckbox == checked && scrollBarSync == checked
      ensures store == SaveScrollBarSettings(old(store), checked)
      ensures StartupScrollSync(store) == checked
      ensures LoadLastContent(store) == LoadLastContent(old(store))
      ensures content == old(content) && hasEdited == old(hasEdited) && output == old(output)
      ensures editorColumnScroll == old(editorColumnScroll)
      ensures previewColumnScroll == old(previewColumnScroll)
      ensures old(Mirrored()) ==> Mirrored()
    {
      syncCheckbox := checked;
      scrollBarSync := checked;
      store := SaveScrollBarSettings(store, checked);
    }

    method EnableScrollBarSync()
      modifies this`scrollBarSync
      ensures scrollBarSync
    {
      scrollBarSync := true;
    }

    method DisableScrollBarSync()
      modifies this`scrollBarSync
      ensures !scrollBarSync
    {
      scrollBarSync := false;
    }

    /** The editor scrolled to `scrollTop` of `scrollHeight`, showing `height`.
        Only when the toggle is on does the preview follow, to the same
        fraction of its own range. */
    method OnEditorScroll(scrollTop: real, scrollHeight: real, height: real,
                          previewScrollHeight: real, previewClientHeight: real)
      modifies this`previewColumnScroll
      ensures !scrollBarSync ==> previewColumnScroll == old(previewColumnScroll)
      ensures scrollBarSync ==>
                previewColumnScroll == ScrollSync.ScrollTo(
                  ScrollSync.TargetY(scrollTop, scrollHeight, height, previewScrollHeight, previewClientHeight),
                  previewScrollHeight - previewClientHeight)
    {
      if !scrollBarSync {
        return;
      }
      var maxScrollTop := scrollHeight - height;
      var scrollRatio := Divide(scrollTop, maxScrollTop);
      var targetY := Scale(previewScrollHeight - previewClientHeight, scrollRatio);
      previewColumnScroll := ScrollSync.ScrollTo(targetY, previewScrollHeight - previewClientHeight);
    }
  }

  /** The page's entry point: a session over the built-in template. */
  method PageLoad(persisted: Store, render: string -> string) returns (s: Session)
    requires ContentIsText(persisted)
    ensures fresh(s) && s.defaultInput == Template.DefaultInput && s.render == render
    ensures s.content == StartupContent(persisted, Template.DefaultInput) && !s.hasEdited
    ensures s.scrollBarSync == StartupScrollSync(persisted) && s.syncCheckbox == s.scrollBarSync
    ensures s.store == SaveLastContent(persisted, s.content) && s.Mirrored()
  {
    s := new Session.Startup(persisted, render, Template.DefaultInput);
  }

  /** A short session from an empty store, checked against the contracts
      alone: no prompt before any edit, a prompt after one, nothing lost
      when the prompt is declined, and the template back when accepted.
      Editing back to the template text still prompts: the flag is sticky. */
  method ResetWalkthrough(render: string -> string, template: string)
  {
    var s := new Session.Startup(map[], render, template);
    assert s.content == template && !s.hasEdited && !s.scrollBarSync;

    var asked := s.Reset(false);
    assert !asked && s.content == template;

    var edited := template + "!";
    s.UserEdit(edited);
    asked := s.Reset(false);
    assert asked && s.content == edited && s.hasEdited;

    s.UserEdit(template);
    asked := s.Reset(false);
    assert asked && s.hasEdited;

    asked := s.Reset(true);
    assert asked && s.content == template && !s.hasEdited;
    assert s.output == render(template);
  }
}
