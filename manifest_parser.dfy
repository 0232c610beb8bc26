/** The auto-deployer's manifest normaliser
    (src/rust/kanto-auto-deployer/src/manifest_parser.rs): a manifest already
    in the control plane's container shape is decoded directly; otherwise it
    is taken for a simplified ("init-dir") manifest, merged over the
    full-option template, and a fixed set of its top-level keys is copied
    onto a fresh copy of the template. */
module ManifestParser {
  import opened Wrappers
  import opened Json

  datatype ManifestError =
    | NotJson                     // the manifest text is not JSON at all
    | TemplateNotObject           // the template does not decode to a JSON object
    | ManifestNotObject           // the expanded manifest is not a JSON object
    | NoTemplateKey(key: string)  // `update_template`: the template lacks the target key
    | NoDataKey(key: string)      // `update_template`: the manifest lacks the source key
    | NotCanonical                // the re-mapped document does not decode to a container

  type Fields = map<string, Json>

  /** The eight template keys. */
  const Name := "name"
  const Image := "image"
  const Id := "id"
  const DomainName := "domain_name"
  const HostName := "host_name"
  const Mounts := "mounts"
  const Config := "config"
  const HostConfig := "host_config"

  /** Template key -> manifest key, for the eight mapped targets: `name` and
      `image` are mandatory, the other six optional. */
  const Targets: map<string, string> :=
    map[Name := "container_name", Image := "image", Id := "container_id",
        DomainName := "domain_name", HostName := "host_name",
        Mounts := "mount_points", Config := "config", HostConfig := "host_config"]

  /** `update_template`: replace the template's value for `templateKey` by a
      copy of the data's value for `dataKey`. The template key is looked up
      first, and a failed update leaves the template as it was. */
  method UpdateTemplate(template: Fields, data: Fields, templateKey: string, dataKey: string)
    returns (updated: Fields, res: Outcome<ManifestError>)
    ensures templateKey !in template ==> res == Fail(NoTemplateKey(templateKey))
    ensures templateKey in template && dataKey !in data ==> res == Fail(NoDataKey(dataKey))
    ensures res.Pass? <==> templateKey in template && dataKey in data
    ensures res.Fail? ==> updated == template
    ensures res.Pass? ==> updated == template[templateKey := data[dataKey]]
    ensures res.Pass? ==> && updated.Keys == template.Keys
                          && updated[templateKey] == data[dataKey]
                          && forall k :: k in template && k != templateKey ==> updated[k] == template[k]
  {
    updated := template;
    if templateKey !in template {
      return updated, Fail(NoTemplateKey(templateKey));
    }
    if dataKey !in data {
      return updated, Fail(NoDataKey(dataKey));
    }
    updated := updated[templateKey := data[dataKey]];
    res := Pass;
  }

  /** The re-mapping, stated declaratively: the template must be an object,
      the expanded manifest must be an object, each mandatory pair must be
      present on both sides (checked in order, template key first); the
      result is the template with every mapped target whose manifest key is
      present overwritten by that manifest value. */
  function Remapped(template: Json, expanded: Json): Result<Json, ManifestError>
  {
    if !template.Obj? then Err(TemplateNotObject)
    else if !expanded.Obj? then Err(ManifestNotObject)
    else
      var t := template.fields;
      var m := expanded.fields;
      if Name !in t then Err(NoTemplateKey(Name))
      else if Targets[Name] !in m then Err(NoDataKey(Targets[Name]))
      else if Image !in t then Err(NoTemplateKey(Image))
      else if Targets[Image] !in m then Err(NoDataKey(Targets[Image]))
      else Ok(Obj(map k | k in t :: if k in Targets && Targets[k] in m then m[Targets[k]] else t[k]))
  }

  /** The template `t` with the mapped targets in `done` overwritten from `m`
      wherever `m` has their manifest key. */
  ghost function Overlay(t: Fields, m: Fields, done: set<string>): Fields
  {
    map k | k in t :: if k in done && k in Targets && Targets[k] in m then m[Targets[k]] else t[k]
  }

  lemma OverlayNothing(t: Fields, m: Fields)
    ensures Overlay(t, m, {}) == t
  {
  }

  /** One more successful or skipped `update_template` extends the overlay. */
  lemma OverlayStep(t: Fields, m: Fields, done: set<string>, tk: string)
    requires tk in Targets
    ensures var o := Overlay(t, m, done);
            Overlay(t, m, done + {tk})
            == if tk in o && Targets[tk] in m then o[tk := m[Targets[tk]]] else o
  {
  }

  /** Once every mapped target has been tried, the overlay is the
      re-mapping's result. */
  lemma OverlayAll(t: Fields, m: Fields, done: set<string>)
    requires Targets.Keys <= done
    ensures Overlay(t, m, done) == map k | k in t :: if k in Targets && Targets[k] in m then m[Targets[k]] else t[k]
  {
  }

  /** `try_or_print(update_template(...))` for one optional key: a failed
      update is only logged, so the re-mapping keeps going with the template
      as it was. */
  method UpdateOptional(repr: Fields, ctr: Fields, templateKey: string, dataKey: string,
                        ghost t: Fields, ghost done: set<string>) returns (updated: Fields)
    requires templateKey in Targets && Targets[templateKey] == dataKey
    requires repr == Overlay(t, ctr, done)
    ensures updated == Overlay(t, ctr, done + {templateKey})
  {
    var res;
    updated, res := UpdateTemplate(repr, ctr, templateKey, dataKey);
    OverlayStep(t, ctr, done, templateKey);
  }

  /** The mandatory half of the re-mapping: `name`, then `image`; the
      first failure is the re-mapping's error. */
  method MapMandatory(t: Fields, ctr: Fields) returns (repr: Fields, res: Outcome<ManifestError>)
    ensures res.Fail? ==> Remapped(Obj(t), Obj(ctr)) == Err(res.error)
    ensures res.Pass? ==> Remapped(Obj(t), Obj(ctr)).Ok? && repr == Overlay(t, ctr, {Name, Image})
  {
    OverlayNothing(t, ctr);
    repr, res := UpdateTemplate(t, ctr, Name, "container_name");
    if res.Fail? {
      assert Name !in t || Targets[Name] !in ctr;
      return;
    }
    OverlayStep(t, ctr, {}, Name);
    repr, res := UpdateTemplate(repr, ctr, Image, "image");
    if res.Fail? {
      assert Image !in t || Targets[Image] !in ctr;
      return;
    }
    OverlayStep(t, ctr, {} + {Name}, Image);
    assert {} + {Name} + {Image} == {Name, Image};
  }

  /** The optional half: each of the six optional keys, in order, a
      failure only logged. */
  method MapOptional(repr: Fields, ctr: Fields, ghost t: Fields) returns (updated: Fields)
    requires repr == Overlay(t, ctr, {Name, Image})
    ensures updated == Overlay(t, ctr, Targets.Keys)
  {
    ghost var done: set<string> := {Name, Image};
    updated := UpdateOptional(repr, ctr, Id, "container_id", t, done);
    done := done + {Id};
    updated := UpdateOptional(updated, ctr, DomainName, "domain_name", t, done);
    done := done + {DomainName};
    updated := UpdateOptional(updated, ctr, HostName, "host_name", t, done);
    done := done + {HostName};
    updated := UpdateOptional(updated, ctr, Mounts, "mount_points", t, done);
    done := done + {Mounts};
    updated := UpdateOptional(updated, ctr, Config, "config", t, done);
    done := done + {Config};
    updated := UpdateOptional(updated, ctr, HostConfig, "host_config", t, done);
    done := done + {HostConfig};
    assert done == Targets.Keys;
  }

  /** `map_to_internal_state_manifest`: starting from a fresh template, copy
      the mandatory keys (failing when one is missing) and then the optional
      ones (a missing one is only logged by `try_or_print`, and the template
      default stays). */
  method MapToInternalStateManifest(template: Json, expanded: Json) returns (r: Result<Json, ManifestError>)
    ensures r == Remapped(template, expanded)
  {
    if !template.Obj? {
      return Err(TemplateNotObject);
    }
    if !expanded.Obj? {
      return Err(ManifestNotObject);
    }
    var repr, res := MapMandatory(template.fields, expanded.fields);
    if res.Fail? {
      return Err(res.error);
    }
    repr := MapOptional(repr, expanded.fields, template.fields);
    OverlayAll(template.fields, expanded.fields, Targets.Keys);
    r := Ok(Obj(repr));
  }

  /** `expand_container_manifest`: merge the manifest over the template. */
  function ExpandContainerManifest(template: Json, manifest: Json): Json
  {
    MergePatch(template, manifest)
  }

  /** The conversion of a simplified manifest: expand, then re-map. */
  function Normalise(template: Json, manifest: Json): Result<Json, ManifestError>
  {
    Remapped(template, ExpandContainerManifest(template, manifest))
  }

  /** Re-mapping succeeds exactly when both documents are objects and both
      mandatory pairs are present; a missing manifest key is reported by
      name, `container_name` before `image`. */
  lemma RemappedMandatory(template: Json, expanded: Json)
    requires template.Obj? && expanded.Obj?
    ensures Remapped(template, expanded).Ok?
        <==> Name in template.fields && Image in template.fields
             && "container_name" in expanded.fields && "image" in expanded.fields
    ensures Name in template.fields && "container_name" !in expanded.fields
        ==> Remapped(template, expanded) == Err(NoDataKey("container_name"))
    ensures Name in template.fields && Image in template.fields
            && "container_name" in expanded.fields && "image" !in expanded.fields
        ==> Remapped(template, expanded) == Err(NoDataKey("image"))
  {
  }

  /** A successful re-mapping starts from the template: it has exactly the
      template's keys, every key outside the eight targets keeps the template
      value whatever the manifest says, and an optional target whose manifest
      key is absent keeps its template default. */
  lemma RemappedFromTemplate(template: Json, expanded: Json)
    requires Remapped(template, expanded).Ok?
    ensures var r := Remapped(template, expanded).value;
            && r.Obj? && r.fields.Keys == template.fields.Keys
            && (forall k :: k in template.fields && k !in Targets ==> r.fields[k] == template.fields[k])
            && (forall k :: k in template.fields && k in Targets && Targets[k] !in expanded.fields
                  ==> r.fields[k] == template.fields[k])
            && (forall k :: k in template.fields && k in Targets && Targets[k] in expanded.fields
                  ==> r.fields[k] == expanded.fields[Targets[k]])
  {
  }

  /** A manifest that is not a JSON object replaces the whole template in the
      merge, so re-mapping rejects it. */
  lemma {:induction false} NormaliseNonObject(template: Json, manifest: Json)
    requires template.Obj? && !manifest.Obj?
    ensures Normalise(template, manifest) == Err(ManifestNotObject)
  {
    MergePatchMembers(template, manifest);
  }

  /** A simplified manifest without `container_name` (or with it set to
      `null`) fails with the mapping error naming that key, provided the
      template itself has no `container_name` member. */
  lemma {:induction false} NormaliseMissingName(template: Json, manifest: Json)
    requires template.Obj? && manifest.Obj?
    requires Name in template.fields && "container_name" !in template.fields
    requires "container_name" !in manifest.fields || manifest.fields["container_name"] == Null
    ensures Normalise(template, manifest) == Err(NoDataKey("container_name"))
  {
    MergePatchMembers(template, manifest);
  }

  /** The data keys are looked up in the EXPANDED document, which holds every
      template key. So when the template has an `image` member, a simplified
      manifest without `image` is not rejected: the template's own `image`
      is copied onto itself and re-mapping succeeds. */
  lemma {:induction false} NormaliseMissingImageKeepsTemplate(template: Json, manifest: Json)
    requires template.Obj? && manifest.Obj?
    requires Name in template.fields && Image in template.fields
    requires "container_name" in manifest.fields && manifest.fields["container_name"] != Null
    requires "image" !in manifest.fields
    ensures Normalise(template, manifest).Ok?
    ensures Normalise(template, manifest).value.fields[Image] == template.fields[Image]
  {
    MergePatchMembers(template, manifest);
  }

  /** An optional target whose manifest key the simplified manifest does not
      mention ends up with the template's value for that manifest key when
      the template has one, and otherwise with its own template default. */
  lemma {:induction false} NormaliseOptionalDefault(template: Json, manifest: Json, k: string)
    requires manifest.Obj? && Normalise(template, manifest).Ok?
    requires k in Targets && k in template.fields && Targets[k] !in manifest.fields
    ensures Normalise(template, manifest).value.fields[k]
         == if Targets[k] in template.fields then template.fields[Targets[k]] else template.fields[k]
  {
    MergePatchMembers(template, manifest);
  }

  /** `try_parse_manifest`. The three decoders are serde's: `decodeContainer`
      decodes manifest text straight into a container, `parseJson` decodes it
      into a JSON value, `fromValue` decodes a JSON value into a container. */
  function TryParseManifest<C>(text: string, template: Json,
                               decodeContainer: string -> Option<C>,
                               parseJson: string -> Option<Json>,
                               fromValue: Json -> Option<C>): Result<C, ManifestError>
  {
    match decodeContainer(text)
    case Some(c) => Ok(c)
    case None =>
      match parseJson(text)
      case None => Err(NotJson)
      case Some(manifest) =>
        match Normalise(template, manifest)
        case Err(e) => Err(e)
        case Ok(internal) =>
          match fromValue(internal)
          case Some(c) => Ok(c)
          case None => Err(NotCanonical)
  }

  /** Text that the container decoder accepts is returned as decoded,
      whatever the template; text that is neither a container nor JSON is
      `NotJson`, whatever the template. */
  lemma TryParseManifestTemplateFree<C>(text: string, template: Json, other: Json,
                                        decodeContainer: string -> Option<C>,
                                        parseJson: string -> Option<Json>,
                                        fromValue: Json -> Option<C>)
    requires decodeContainer(text).Some? || parseJson(text).None?
    ensures TryParseManifest(text, template, decodeContainer, parseJson, fromValue)
         == TryParseManifest(text, other, decodeContainer, parseJson, fromValue)
    ensures TryParseManifest(text, template, decodeContainer, parseJson, fromValue)
         == if decodeContainer(text).Some? then Ok(decodeContainer(text).value) else Err(NotJson)
  {
  }

  /** A simplified manifest whose `container_name` and `image` are set:
      the document handed to the container decoder has the template's keys,
      the manifest's `container_name` as its `name`, and as its `image` the
      manifest's `image` merged over the template's; the result is that
      decoding, or `NotCanonical` when the decoder refuses it. */
  lemma {:induction false} TryParseManifestSimplified<C>(text: string, template: Json, m: Json,
                                                         decodeContainer: string -> Option<C>,
                                                         parseJson: string -> Option<Json>,
                                                         fromValue: Json -> Option<C>)
    requires decodeContainer(text).None? && parseJson(text) == Some(m)
    requires template.Obj? && Name in template.fields && Image in template.fields
    requires m.Obj? && Targets[Name] in m.fields && Image in m.fields
    requires !m.fields[Targets[Name]].Null? && !m.fields[Targets[Name]].Obj? && !m.fields[Image].Null?
    ensures Normalise(template, m).Ok?
    ensures var doc := Normalise(template, m).value;
            && doc.Obj? && doc.fields.Keys == template.fields.Keys
            && doc.fields[Name] == m.fields[Targets[Name]]
            && doc.fields[Image] == MergePatch(template.fields[Image], m.fields[Image])
            && TryParseManifest(text, template, decodeContainer, parseJson, fromValue)
               == if fromValue(doc).Some? then Ok(fromValue(doc).value) else Err(NotCanonical)
  {
    MergePatchMembers(template, m);
    var expanded := ExpandContainerManifest(template, m);
    assert expanded.fields[Targets[Name]] == m.fields[Targets[Name]];
    RemappedMandatory(template, expanded);
  }

  /** A manifest that is JSON but not an object is rejected as such. */
  lemma {:induction false} TryParseManifestNotObject<C>(text: string, template: Json, m: Json,
                                                        decodeContainer: string -> Option<C>,
                                                        parseJson: string -> Option<Json>,
                                                        fromValue: Json -> Option<C>)
    requires decodeContainer(text).None? && parseJson(text) == Some(m)
    requires template.Obj? && !m.Obj?
    ensures TryParseManifest(text, template, decodeContainer, parseJson, fromValue) == Err(ManifestNotObject)
  {
    NormaliseNonObject(template, m);
  }

  /** A simplified manifest without `container_name` (or with it `null`)
      is rejected naming that key, when the template has no such member. */
  lemma {:induction false} TryParseManifestMissingName<C>(text: string, template: Json, m: Json,
                                                          decodeContainer: string -> Option<C>,
                                                          parseJson: string -> Option<Json>,
                                                          fromValue: Json -> Option<C>)
    requires decodeContainer(text).None? && parseJson(text) == Some(m)
    requires template.Obj? && m.Obj?
    requires Name in template.fields && "container_name" !in template.fields
    requires "container_name" !in m.fields || m.fields["container_name"] == Null
    ensures TryParseManifest(text, template, decodeContainer, parseJson, fromValue)
         == Err(NoDataKey("container_name"))
  {
    NormaliseMissingName(template, m);
  }
}
