/**
 * The persisted session: a key/value store addressed by (namespace, key),
 * with the two slots the editor uses, one for the last content and one for
 * the scroll-sync setting. Expiry dates are not part of the model.
 */
module SessionStore {
  import opened Js

  const Namespace: string := "com.markdownlivepreview"
  const ContentKey: string := "last_state"
  const ScrollSyncKey: string := "scroll_bar_settings"

  /** What the editor writes: the content as text, the setting as a flag. */
  datatype Value = Text(text: string) | Flag(flag: bool)

  type Store = map<(string, string), Value>

  /** JavaScript truthiness: the empty string and `false` are falsy. */
  predicate Truthy(v: Value)
  {
    match v
    case Text(s) => s != ""
    case Flag(b) => b
  }

  /** Reading a slot: absent when it was never written. */
  function GetItem(st: Store, namespace: string, key: string): (r: Option<Value>)
    ensures r.Some? <==> (namespace, key) in st
    ensures r.Some? ==> r.value == st[(namespace, key)]
  {
    if (namespace, key) in st then Some(st[(namespace, key)]) else None
  }

  /** Writing a slot overwrites it and leaves every other slot alone. */
  function SetItem(st: Store, namespace: string, key: string, v: Value): (r: Store)
    ensures GetItem(r, namespace, key) == Some(v)
    ensures forall n, k :: (n, k) != (namespace, key) ==> GetItem(r, n, k) == GetItem(st, n, k)
    ensures r.Keys == st.Keys + {(namespace, key)}
  {
    st[(namespace, key) := v]
  }

  /** Reading the content slot. */
  function LoadLastContent(st: Store): (r: Option<Value>)
    ensures r.Some? <==> (Namespace, ContentKey) in st
    ensures r.Some? ==> r.value == st[(Namespace, ContentKey)]
  {
    GetItem(st, Namespace, ContentKey)
  }

  /** Saving the content writes the content slot and only it. */
  function SaveLastContent(st: Store, content: string): (r: Store)
    ensures LoadLastContent(r) == Some(Text(content))
    ensures LoadScrollBarSettings(r) == LoadScrollBarSettings(st)
    ensures forall n, k :: (n, k) != (Namespace, ContentKey) ==> GetItem(r, n, k) == GetItem(st, n, k)
  {
    SetItem(st, Namespace, ContentKey, Text(content))
  }

  /** Reading the scroll-setting slot. */
  function LoadScrollBarSettings(st: Store): (r: Option<Value>)
    ensures r.Some? <==> (Namespace, ScrollSyncKey) in st
    ensures r.Some? ==> r.value == st[(Namespace, ScrollSyncKey)]
  {
    GetItem(st, Namespace, ScrollSyncKey)
  }

  /** Saving the setting writes the setting slot and only it. */
  function SaveScrollBarSettings(st: Store, settings: bool): (r: Store)
    ensures LoadScrollBarSettings(r) == Some(Flag(settings))
    ensures LoadLastContent(r) == LoadLastContent(st)
    ensures forall n, k :: (n, k) != (Namespace, ScrollSyncKey) ==> GetItem(r, n, k) == GetItem(st, n, k)
  {
    SetItem(st, Namespace, ScrollSyncKey, Flag(settings))
  }

  /** The content slot holds text whenever it holds anything: the editor
      writes nothing else there. */
  predicate ContentIsText(st: Store)
  {
    LoadLastContent(st).Some? ==> LoadLastContent(st).value.Text?
  }

  /** The content installed at startup: the persisted text when it is truthy,
      the built-in template when the slot is absent or empty. */
  function StartupContent(st: Store, template: string): (r: string)
    requires ContentIsText(st)
    ensures r == template <== LoadLastContent(st) == None || LoadLastContent(st) == Some(Text(""))
    ensures r != template ==> LoadLastContent(st) == Some(Text(r))
    ensures LoadLastContent(st).Some? && Truthy(LoadLastContent(st).value) ==> r == LoadLastContent(st).value.text
  {
    var last := LoadLastContent(st);
    if last.Some? && Truthy(last.value) then last.value.text else template
  }

  /** The scroll-sync setting installed at startup: the persisted value's
      truthiness, disabled when nothing was saved. */
  function StartupScrollSync(st: Store): (r: bool)
    ensures LoadScrollBarSettings(st) == None ==> !r
    ensures forall b :: LoadScrollBarSettings(st) == Some(Flag(b)) ==> r == b
  {
    var settings := LoadScrollBarSettings(st);
    settings.Some? && Truthy(settings.value)
  }

  /** What a reload restores after the content was saved: the same text,
      except that an empty text brings back the template. */
  lemma ReloadRestoresContent(st: Store, content: string, template: string)
    ensures ContentIsText(SaveLastContent(st, content))
    ensures StartupContent(SaveLastContent(st, content), template)
            == if content == "" then template else content
  {
  }

  /** Saving the content never changes what a reload makes of the setting,
      and saving the setting never changes the content a reload installs. */
  lemma SlotsIndependent(st: Store, content: string, settings: bool, template: string)
    requires ContentIsText(st)
    ensures StartupScrollSync(SaveLastContent(st, content)) == StartupScrollSync(st)
    ensures ContentIsText(SaveScrollBarSettings(st, settings))
    ensures StartupContent(SaveScrollBarSettings(st, settings), template) == StartupContent(st, template)
  {
  }

  /** A saved setting comes back as it was saved. */
  lemma ReloadRestoresScrollSync(st: Store, settings: bool)
    ensures StartupScrollSync(SaveScrollBarSettings(st, settings)) == settings
  {
  }
}
