/** The one-field data record that carries the confirmation-button
    preference from the phone to the watch over the Wear Data API. */
module PreferencesData {

  const URI_PATH: string := "/preferencesdata"
  const FIELD_USE_BUTTON_CONFIRMATION: string := "use_button_confirmation"

  /** PutDataRequest.WEAR_URI_SCHEME. */
  const WEAR_URI_SCHEME: string := "wear"

  /** An android.net.Uri, reduced to the parts the record uses. */
  datatype Uri = Uri(scheme: string, authority: string, path: string)

  /** A value held in a DataMap. */
  datatype DataValue = DataBool(b: bool) | DataString(s: string)

  type DataMap = map<string, DataValue>

  /** A PutDataMapRequest: the path the item is put at and its data map. */
  datatype PutDataMapRequest = PutDataMapRequest(path: string, dataMap: DataMap)

  /** The URI of the record on node nodeId. */
  function GetUri(nodeId: string): (u: Uri)
    ensures u.scheme == WEAR_URI_SCHEME && u.authority == nodeId && u.path == URI_PATH
  {
    Uri(WEAR_URI_SCHEME, nodeId, URI_PATH)
  }

  /** DataMap.getBoolean(key): false when the key is absent or holds
      another type. */
  function GetBoolean(m: DataMap, key: string): (b: bool)
    ensures key in m && m[key].DataBool? ==> b == m[key].b
    ensures !(key in m && m[key].DataBool?) ==> !b
  {
    key in m && m[key].DataBool? && m[key].b
  }

  /** The flag a data map carries: the stored boolean under
      use_button_confirmation, false when the field is missing or not a
      boolean. */
  function GetUseButtonConfirmation(m: DataMap): (b: bool)
    ensures FIELD_USE_BUTTON_CONFIRMATION in m && m[FIELD_USE_BUTTON_CONFIRMATION].DataBool? ==>
              b == m[FIELD_USE_BUTTON_CONFIRMATION].b
    ensures FIELD_USE_BUTTON_CONFIRMATION !in m ==> !b
    ensures FIELD_USE_BUTTON_CONFIRMATION in m && !m[FIELD_USE_BUTTON_CONFIRMATION].DataBool? ==> !b
  {
    GetBoolean(m, FIELD_USE_BUTTON_CONFIRMATION)
  }

  /** Packs the flag into a fresh request at the fixed path. */
  function ToDataMap(useButtonConfirmation: bool): (r: PutDataMapRequest)
    ensures r.path == URI_PATH
    ensures r.dataMap.Keys == {FIELD_USE_BUTTON_CONFIRMATION}
    ensures GetUseButtonConfirmation(r.dataMap) == useButtonConfirmation
  {
    PutDataMapRequest(URI_PATH, map[FIELD_USE_BUTTON_CONFIRMATION := DataBool(useButtonConfirmation)])
  }
}
