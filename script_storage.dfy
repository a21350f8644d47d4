/**
 * services/CustomScriptStorage.ts: per-slot script persistence with a
 * template fallback, and the JSON document used for import and export.
 * `JSON.parse` and `JSON.stringify` are not modelled: import receives the
 * parsed value (or None when parsing threw) and export yields the document
 * value that would be serialised.
 */
module ScriptStorage {
  import opened Wrappers
  import opened Js
  import opened LocalStorage
  import Templates

  const LOCALSTORAGE_SCRIPT_KEY_PREFIX: string := "scriptman_fighter_script_"
  /** The `type` marker of an exported script document. */
  const SCRIPT_DOCUMENT_TYPE: string := "scriptman-fighter-script"
  const SCRIPT_DOCUMENT_VERSION: real := 1.0

  /** `getDefaultScriptForSlot`: template B for 'slot2', template A for every other slot. */
  function GetDefaultScriptForSlot(slotId: string): (s: string)
    ensures slotId == "slot2" ==> s == Templates.DEFAULT_FIGHTER_SCRIPT_B
    ensures slotId != "slot2" ==> s == Templates.DEFAULT_FIGHTER_SCRIPT
    ensures |s| > 0
  {
    Templates.TemplatesDistinctAndNonEmpty();
    if slotId == "slot2" then Templates.DEFAULT_FIGHTER_SCRIPT_B else Templates.DEFAULT_FIGHTER_SCRIPT
  }

  function StorageKey(slotId: string): (key: string)
    ensures |key| == |LOCALSTORAGE_SCRIPT_KEY_PREFIX| + |slotId|
    ensures key[..|LOCALSTORAGE_SCRIPT_KEY_PREFIX|] == LOCALSTORAGE_SCRIPT_KEY_PREFIX
    ensures key[|LOCALSTORAGE_SCRIPT_KEY_PREFIX|..] == slotId
  {
    LOCALSTORAGE_SCRIPT_KEY_PREFIX + slotId
  }

  /** Distinct slots are stored under distinct keys. */
  lemma StorageKeyInjective(a: string, b: string)
    requires StorageKey(a) == StorageKey(b)
    ensures a == b
  {
    assert a == StorageKey(a)[|LOCALSTORAGE_SCRIPT_KEY_PREFIX|..];
  }

  /**
   * `saveScript`: writes under the slot's key; a storage failure is swallowed.
   * On a working store the next load of the slot returns a non-empty saved
   * script; on a store that refuses the write, every load answers as before.
   */
  method SaveScript(storage: Store, scriptCode: string, slotId: string)
    modifies storage`items
    ensures storage.items == if storage.writesFail then old(storage.items)
                             else old(storage.items)[StorageKey(slotId) := scriptCode]
    ensures !storage.readsFail && !storage.writesFail && |scriptCode| > 0 ==> LoadScript(storage, slotId) == scriptCode
    ensures storage.writesFail ==> forall slot :: LoadScript(storage, slot) == old(LoadScript(storage, slot))
  {
    var _ := storage.SetItem(StorageKey(slotId), scriptCode);
  }

  /**
   * `loadScript`: the saved script when it is a non-empty string; the slot's
   * template when nothing is saved, the saved string is empty, or the store throws.
   */
  function LoadScript(storage: Store, slotId: string): (s: string)
    reads storage
    ensures |s| > 0
    ensures storage.GetItem(StorageKey(slotId)).Found? && |storage.GetItem(StorageKey(slotId)).value| > 0 ==>
              s == storage.GetItem(StorageKey(slotId)).value
    ensures !(storage.GetItem(StorageKey(slotId)).Found? && |storage.GetItem(StorageKey(slotId)).value| > 0) ==>
              s == GetDefaultScriptForSlot(slotId)
  {
    var defaultScript := GetDefaultScriptForSlot(slotId);
    match storage.GetItem(StorageKey(slotId))
    case Threw => defaultScript
    case Missing => defaultScript
    case Found(saved) => if |saved| > 0 then saved else defaultScript
  }

  /** The document `exportScript` serialises; `exportedAt` is the clock's ISO timestamp. */
  function ExportDocument(scriptCode: string, exportedAt: string): (doc: JsValue)
    ensures doc.Obj? && "code" in doc.props && doc.props["code"] == Str(scriptCode)
    ensures "type" in doc.props && doc.props["type"] == Str(SCRIPT_DOCUMENT_TYPE)
    ensures "version" in doc.props && doc.props["version"] == Num(SCRIPT_DOCUMENT_VERSION)
  {
    Obj(map["version" := Num(SCRIPT_DOCUMENT_VERSION), "type" := Str(SCRIPT_DOCUMENT_TYPE),
            "code" := Str(scriptCode), "exportedAt" := Str(exportedAt)])
  }

  /** `parsedData.name` in the source: it throws on null and undefined. */
  function Field(v: JsValue, name: string): (r: Option<JsValue>)
    ensures r.None? <==> IsNullish(v)
    ensures r.Some? ==> r.value == OptionalField(v, name)
  {
    if IsNullish(v) then None else Some(OptionalField(v, name))
  }

  /**
   * `importScript`: the `code` string of a document whose `type` is the
   * script marker; null for anything else, for a parse failure (`parsed` is
   * None), and for a parsed null, which throws at the first property access.
   */
  function ImportScript(parsed: Option<JsValue>): (r: Option<string>)
    ensures r.Some? <==>
              parsed.Some? && parsed.value.Obj? &&
              "type" in parsed.value.props && parsed.value.props["type"] == Str(SCRIPT_DOCUMENT_TYPE) &&
              "code" in parsed.value.props && parsed.value.props["code"].Str?
    ensures r.Some? ==> r.value == parsed.value.props["code"].s
  {
    match parsed
    case None => None
    case Some(data) =>
      match (Field(data, "type"), Field(data, "code"))
      case (Some(t), Some(c)) =>
        var isValidType := t == Str(SCRIPT_DOCUMENT_TYPE);
        var hasCodeString := c.Str?;
        if !isValidType || !hasCodeString then None else Some(c.s)
      case _ => None
  }

  /** Importing an exported document gives back the exported code. */
  lemma ExportThenImport(scriptCode: string, exportedAt: string)
    ensures ImportScript(Some(ExportDocument(scriptCode, exportedAt))) == Some(scriptCode)
  {
  }
}
