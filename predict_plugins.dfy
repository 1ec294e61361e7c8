// The viewport-prediction plugin registry both selectors keep
// (InitializePredictPlugins, EnablePosePrediction): plugins are loaded from
// libPath + name and registered by name.

module PredictPlugins {
  import opened OmafTypes

  /** A loaded ViewportPredictPlugin instance, known by the path it was loaded from. */
  datatype PluginHandle = PluginHandle(path: string)

  datatype PredictionMode = SingleViewpoint | MultiViewpoints

  /** PredictOption as EnablePosePrediction fills it. */
  datatype PredictOption = PredictOption(usingFeedbackAngleAdjust: bool, mode: PredictionMode)

  datatype Registration = Registration(status: Status, plugins: map<string, PluginHandle>)

  /** InitializePredictPlugins: an empty library path or plugin name is
      invalid; otherwise the plugin at libPath + name is loaded (`load` is the
      foreign LoadPlugin) and, on success, registered under `name` with
      std::map::insert, which leaves an already registered name untouched. */
  function Register(plugins: map<string, PluginHandle>, libPath: string, name: string,
                    load: string -> Status): (r: Registration)
    ensures r.status == ErrorNone <==> libPath != [] && name != [] && load(libPath + name) == ErrorNone
    ensures (libPath == [] || name == []) ==> r.status == ErrorInvalid
    ensures libPath != [] && name != [] ==> r.status == load(libPath + name)
    ensures r.status != ErrorNone ==> r.plugins == plugins
    ensures r.status == ErrorNone ==>
      && r.plugins.Keys == plugins.Keys + {name}
      && (forall k | k in plugins :: r.plugins[k] == plugins[k])
      && (name !in plugins ==> r.plugins[name] == PluginHandle(libPath + name))
  {
    if libPath == [] || name == [] then
      Registration(ErrorInvalid, plugins)
    else
      var path := libPath + name;
      var loaded := load(path);
      if loaded != ErrorNone then
        Registration(loaded, plugins)
      else if name in plugins then
        Registration(ErrorNone, plugins)
      else
        Registration(ErrorNone, plugins[name := PluginHandle(path)])
  }

  /** Registering a name a second time succeeds but keeps the first instance. */
  lemma ReRegisterKeepsFirst(plugins: map<string, PluginHandle>, libPath: string, name: string,
                             load: string -> Status)
    requires name in plugins
    ensures Register(plugins, libPath, name, load).plugins == plugins
  {
  }

  /** The option EnablePosePrediction hands to the plugin's Intialize. */
  function EnableOption(enableExtractor: bool): (o: PredictOption)
    ensures o.usingFeedbackAngleAdjust
    ensures o.mode == SingleViewpoint <==> enableExtractor
  {
    PredictOption(true, if enableExtractor then SingleViewpoint else MultiViewpoints)
  }
}
