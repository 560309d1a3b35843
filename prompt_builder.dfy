/**
 * `PromptBuilder.from_cfg` (`prompting/prompt_builder.py`): read a prompt
 * config record, normalise it, merge the caller's parameters into it and make
 * a `Prompt` from it.
 */
module PromptBuilding {
  import opened Wrappers
  import opened Text
  import opened Dicts
  import opened Prompting

  /** A prompt config record; a key the record lacks is `None`. */
  datatype PromptConfig = PromptConfig(
    template: Option<string>,
    role: Option<string>,
    parameters: Option<Dict<string, Option<string>>>)

  /** `prompt_cfg`: a config record, or the path of a file that holds one. */
  datatype ConfigSource = Record(cfg: PromptConfig) | ConfigFile(path: string)

  /** The three arguments `from_cfg` passes to `Prompt(template, role, params)`. */
  datatype PromptArgs = PromptArgs(template: string, role: string, parameters: Dict<string, Option<string>>)

  predicate ValidConfig(cfg: PromptConfig) {
    cfg.parameters.Some? ==> cfg.parameters.value.Valid()
  }

  /**
   * The checks and normalisation of `from_cfg`.  For a file path, `isFile`
   * says whether it names an existing file and `loaded` is the record the
   * file evaluates to (reading and evaluating the file is not modelled).
   * A path that is not a file raises; otherwise the template is the config's
   * (or '') stripped, and raises when that is empty; the role defaults to
   * 'user'; the caller's parameters override the config's on the same key,
   * and the config's other parameters are kept.
   */
  function ReadConfig(source: ConfigSource, isFile: bool, loaded: PromptConfig,
                      parameters: Dict<string, Option<string>>): (r: Result<PromptArgs, ValueError>)
    requires parameters.Valid()
    requires ValidConfig(loaded)
    requires source.Record? ==> ValidConfig(source.cfg)
    ensures source.ConfigFile? && !isFile ==> r == Err(InvalidConfigFile(source.path))
    ensures source.Record? || isFile ==>
              var cfg := if source.Record? then source.cfg else loaded;
              var template := Strip(cfg.template.GetOr(""));
              && (template == [] <==> r == Err(EmptyTemplate))
              && (r.Ok? ==>
                    && r.value.template == template
                    && r.value.role == cfg.role.GetOr("user")
                    && r.value.parameters.Valid()
                    && (forall k :: k in r.value.parameters.entries <==>
                          k in parameters.entries
                          || (cfg.parameters.Some? && k in cfg.parameters.value.entries))
                    && (forall k :: k in parameters.entries ==>
                          r.value.parameters.entries[k] == parameters.entries[k])
                    && (forall k :: cfg.parameters.Some? && k in cfg.parameters.value.entries
                                    && k !in parameters.entries ==>
                          r.value.parameters.entries[k] == cfg.parameters.value.entries[k]))
  {
    if source.ConfigFile? && !isFile then Err(InvalidConfigFile(source.path))
    else
      var cfg := if source.Record? then source.cfg else loaded;
      var template := Strip(cfg.template.GetOr(""));
      var role := cfg.role.GetOr("user");
      var base: Dict<string, Option<string>> := cfg.parameters.GetOr(Empty());
      var params := Update(base, parameters);
      if |template| == 0 then Err(EmptyTemplate)
      else Ok(PromptArgs(template, role, params))
  }

  /**
   * The merged parameters list the config's keys first, in their order,
   * then the caller's keys that the config did not have, in the caller's order.
   */
  lemma ReadConfigKeyOrder(source: ConfigSource, isFile: bool, loaded: PromptConfig,
                           parameters: Dict<string, Option<string>>)
    requires parameters.Valid()
    requires ValidConfig(loaded)
    requires source.Record? ==> ValidConfig(source.cfg)
    requires ReadConfig(source, isFile, loaded, parameters).Ok?
    ensures var cfg := if source.Record? then source.cfg else loaded;
            ReadConfig(source, isFile, loaded, parameters).value.parameters.keys
            == if cfg.parameters.Some?
               then cfg.parameters.value.keys + Unseen(parameters.keys, cfg.parameters.value.entries.Keys)
               else parameters.keys
  {
    var cfg := if source.Record? then source.cfg else loaded;
    var base: Dict<string, Option<string>> := cfg.parameters.GetOr(Empty());
    assert ReadConfig(source, isFile, loaded, parameters).value.parameters == Update(base, parameters);
    UpdateKeys(base, parameters);
    if cfg.parameters.None? {
      assert base.keys == [] && base.entries.Keys == {};
      UnseenNothing(parameters.keys);
    }
  }

  /**
   * `from_cfg`: the checked config gives `Prompt(template, role, params)`,
   * so a merged parameter that the template does not declare raises too.
   */
  method FromCfg(source: ConfigSource, isFile: bool, loaded: PromptConfig,
                 parameters: Dict<string, Option<string>>) returns (r: Result<Prompt, ValueError>)
    requires parameters.Valid()
    requires ValidConfig(loaded)
    requires source.Record? ==> ValidConfig(source.cfg)
    ensures ReadConfig(source, isFile, loaded, parameters).Err? ==>
              r == Err(ReadConfig(source, isFile, loaded, parameters).error)
    ensures ReadConfig(source, isFile, loaded, parameters).Ok? ==>
              var args := ReadConfig(source, isFile, loaded, parameters).value;
              && (r.Err? <==> exists k :: k in args.parameters.entries && k !in PlaceholderNames(args.template))
              && (r.Err? ==> r.error.UnknownParameter? && r.error.name in args.parameters.entries
                             && r.error.name !in PlaceholderNames(args.template)
                             && forall j :: 0 <= j < |args.parameters.keys| && args.parameters.keys[j] == r.error.name ==>
                                  InitialKnown(args.template, args.parameters, j))
              && (r.Ok? ==> fresh(r.value) && r.value.Valid()
                            && r.value.template == args.template && r.value.role == args.role
                            && forall name :: name in PlaceholderNames(args.template) ==>
                                 r.value.parameters.entries[name]
                                 == if name in args.parameters.entries then args.parameters.entries[name] else None)
  {
    var args := ReadConfig(source, isFile, loaded, parameters);
    if args.Err? {
      return Err(args.error);
    }
    r := NewPrompt(args.value.template, args.value.role, args.value.parameters);
  }
}
