/**
 * The build configuration (`app.config.js`): for a TV build the `expo-build-properties` plugin's
 * iOS options lose `useFrameworks` and gain a modular-headers `GoogleUtilities` pod; every other
 * plugin entry, and every non-TV build, keeps the configuration of `app.json`.
 *
 * JSON values are the datatype below. An object is a map, so the order of its keys is not part of
 * the model.
 */
module AppConfig {
  import opened Wrappers

  datatype Json = JNull | JBool(b: bool) | JNum(n: int) | JStr(s: string)
                | JArr(items: seq<Json>) | JObj(fields: map<string, Json>)

  const BuildProperties: string := "expo-build-properties"
  const GoogleUtilities: string := "GoogleUtilities"

  /** `{ name: "GoogleUtilities", modular_headers: true }`. */
  const GoogleUtilitiesPod: Json :=
    JObj(map["name" := JStr(GoogleUtilities), "modular_headers" := JBool(true)])

  /** `EXPO_TV === "1" || EXPO_TV === "true"`; an unset variable is not a TV build. */
  predicate IsTvBuild(expoTv: Option<string>) {
    expoTv == Some("1") || expoTv == Some("true")
  }

  /**
   * `{ ...(v || {}) }` for an object or a falsy value: the object's fields, or none. (A non-empty
   * string or an array would spread its indices; no such value is modelled here.)
   */
  function Fields(v: Json): (fields: map<string, Json>)
    ensures v.JObj? ==> fields == v.fields
    ensures !v.JObj? ==> fields == map[]
  {
    if v.JObj? then v.fields else map[]
  }

  /** `obj[key]`, `None` for a missing key. */
  function Get(fields: map<string, Json>, key: string): Option<Json> {
    if key in fields then Some(fields[key]) else None
  }

  /** `pod?.name === "GoogleUtilities"`. */
  predicate IsGoogleUtilities(pod: Json) {
    pod.JObj? && Get(pod.fields, "name") == Some(JStr(GoogleUtilities))
  }

  /** `pods.some(pod => pod?.name === "GoogleUtilities")`. */
  function HasGoogleUtilities(pods: seq<Json>): (found: bool)
    ensures found <==> exists i :: 0 <= i < |pods| && IsGoogleUtilities(pods[i])
  {
    if pods == [] then false
    else if IsGoogleUtilities(pods[0]) then true
    else
      assert forall i :: 1 <= i < |pods| ==> pods[i] == pods[1..][i - 1];
      HasGoogleUtilities(pods[1..])
  }

  /** `Array.isArray(ios.extraPods) ? ios.extraPods : []`. */
  function ExistingPods(ios: map<string, Json>): seq<Json> {
    if "extraPods" in ios && ios["extraPods"].JArr? then ios["extraPods"].items else []
  }

  /** The extra pods with `GoogleUtilities` appended unless one is already there. */
  function WithGoogleUtilities(pods: seq<Json>): (r: seq<Json>)
    ensures HasGoogleUtilities(r)
    ensures HasGoogleUtilities(pods) ==> r == pods
    ensures !HasGoogleUtilities(pods) ==> r == pods + [GoogleUtilitiesPod]
  {
    if HasGoogleUtilities(pods) then pods
    else
      assert IsGoogleUtilities((pods + [GoogleUtilitiesPod])[|pods|]);
      pods + [GoogleUtilitiesPod]
  }

  /** `plugin[1]`, `JNull` standing for a missing element (both are falsy). */
  function SecondElement(items: seq<Json>): Json {
    if |items| > 1 then items[1] else JNull
  }

  /** Whether `getTvSafePlugins` rewrites an entry: an array whose first element is the plugin name. */
  predicate IsBuildProperties(plugin: Json) {
    plugin.JArr? && |plugin.items| > 0 && plugin.items[0] == JStr(BuildProperties)
  }

  /** One entry of `getTvSafePlugins`. */
  function TvSafePlugin(plugin: Json): (r: Json)
    ensures !IsBuildProperties(plugin) ==> r == plugin
    ensures IsBuildProperties(plugin) ==>
      var options := Fields(SecondElement(plugin.items));
      var ios := Fields(Get(options, "ios").GetOr(JNull));
      r.JArr? && |r.items| == 2 && r.items[0] == JStr(BuildProperties) && r.items[1].JObj?
      && var options' := r.items[1].fields;
      && options'.Keys == options.Keys + {"ios"}
      && (forall k :: k in options && k != "ios" ==> options'[k] == options[k])
      && options'["ios"].JObj?
      && var ios' := options'["ios"].fields;
      && ios'.Keys == ios.Keys - {"useFrameworks"} + {"extraPods"}
      && (forall k :: k in ios && k !in {"useFrameworks", "extraPods"} ==> ios'[k] == ios[k])
      && ios'["extraPods"] == JArr(WithGoogleUtilities(ExistingPods(ios)))
  {
    if !IsBuildProperties(plugin) then plugin
    else
      var options := Fields(SecondElement(plugin.items));
      var ios := Fields(Get(options, "ios").GetOr(JNull));
      var ios' := (ios - {"useFrameworks"})["extraPods" := JArr(WithGoogleUtilities(ExistingPods(ios)))];
      JArr([JStr(BuildProperties), JObj(options["ios" := JObj(ios')])])
  }

  /** `getTvSafePlugins(plugins)`: entry by entry, length and order kept. */
  function TvSafePlugins(plugins: seq<Json>): (r: seq<Json>)
    ensures |r| == |plugins|
    ensures forall i :: 0 <= i < |plugins| ==> r[i] == TvSafePlugin(plugins[i])
  {
    seq(|plugins|, i requires 0 <= i < |plugins| => TvSafePlugin(plugins[i]))
  }

  /** A rewritten entry is rewritten to itself: a second pass adds no second `GoogleUtilities` pod. */
  lemma TvSafePluginIdempotent(plugin: Json)
    ensures TvSafePlugin(TvSafePlugin(plugin)) == TvSafePlugin(plugin)
  {
    if IsBuildProperties(plugin) {
      var r := TvSafePlugin(plugin);
      var options' := r.items[1].fields;
      var ios' := options'["ios"].fields;
      assert SecondElement(r.items) == r.items[1];
      assert Fields(Get(options', "ios").GetOr(JNull)) == ios';
      assert ExistingPods(ios') == WithGoogleUtilities(ExistingPods(Fields(Get(Fields(SecondElement(plugin.items)), "ios").GetOr(JNull))));
      var ios'' := (ios' - {"useFrameworks"})["extraPods" := JArr(WithGoogleUtilities(ExistingPods(ios')))];
      assert ios'' == ios';
      assert options'["ios" := JObj(ios'')] == options';
    }
  }

  /** The whole plugin list is a fixed point after one pass. */
  lemma TvSafePluginsIdempotent(plugins: seq<Json>)
    ensures TvSafePlugins(TvSafePlugins(plugins)) == TvSafePlugins(plugins)
  {
    forall i | 0 <= i < |plugins|
      ensures TvSafePlugins(TvSafePlugins(plugins))[i] == TvSafePlugins(plugins)[i]
    {
      TvSafePluginIdempotent(plugins[i]);
    }
  }

  /**
   * The exported configuration function. The configuration is `app.json`'s object with a copy of
   * its `expo` object; a TV build replaces that copy's `plugins` with the rewritten list (an absent
   * list counts as empty). `None` stands for the exception JavaScript raises when `expo` is missing
   * or null, or when `plugins` is present but not an array.
   */
  function ExportedConfig(appJson: map<string, Json>, expoTv: Option<string>): (config: Option<Json>)
    ensures !IsTvBuild(expoTv) ==>
      config == Some(JObj(appJson["expo" := JObj(Fields(Get(appJson, "expo").GetOr(JNull)))]))
    ensures IsTvBuild(expoTv) ==>
      (config.None? <==> "expo" !in appJson || appJson["expo"] == JNull
                         || ("plugins" in Fields(appJson["expo"])
                             && !Fields(appJson["expo"])["plugins"].JArr?))
    ensures IsTvBuild(expoTv) && config.Some? ==>
      var expo := Fields(appJson["expo"]);
      config.value.JObj? && config.value.fields.Keys == appJson.Keys
      && (forall k :: k in appJson && k != "expo" ==> config.value.fields[k] == appJson[k])
      && config.value.fields["expo"].JObj?
      && var expo' := config.value.fields["expo"].fields;
      && expo'.Keys == expo.Keys + {"plugins"}
      && (forall k :: k in expo && k != "plugins" ==> expo'[k] == expo[k])
      && expo'["plugins"] == JArr(TvSafePlugins(if "plugins" in expo then expo["plugins"].items else []))
  {
    var expo := Fields(Get(appJson, "expo").GetOr(JNull));
    if !IsTvBuild(expoTv) then Some(JObj(appJson["expo" := JObj(expo)]))
    else if "expo" !in appJson || appJson["expo"] == JNull then None
    else
      var plugins := Get(expo, "plugins").GetOr(JArr([]));
      if !plugins.JArr? then None
      else Some(JObj(appJson["expo" := JObj(expo["plugins" := JArr(TvSafePlugins(plugins.items))])]))
  }

  /** Every rewritten `expo-build-properties` entry carries iOS options holding `GoogleUtilities`. */
  lemma TvPluginHasIosOptions(plugin: Json)
    requires IsBuildProperties(plugin)
    ensures var r := TvSafePlugin(plugin);
      "ios" in r.items[1].fields && "useFrameworks" !in r.items[1].fields["ios"].fields
      && r.items[1].fields["ios"].fields["extraPods"].JArr?
      && HasGoogleUtilities(r.items[1].fields["ios"].fields["extraPods"].items)
  {
  }
}
