// The objects the operator builds: kernel mappings, upgrade against fresh install,
// and the length of the generated names.

module Objects {
  import opened Wrappers
  import opened Kubernetes
  import opened OnloadTypes
  import opened Planning

  // ---- Kernel mappings ----

  /** The entries with an SFC section, in order. */
  function SfcEntries(specs: seq<OnloadKernelMapping>): seq<OnloadKernelMapping> {
    if specs == [] then []
    else if specs[0].sfc.Some? then [specs[0]] + SfcEntries(specs[1..])
    else SfcEntries(specs[1..])
  }

  /** The mapping of one entry, field by field. */
  predicate Mirrors(m: KernelMapping, spec: OnloadKernelMapping) {
    && m.regexp == spec.regexp && m.containerImage == spec.kernelModuleImage
    && (m.build.Some? <==> spec.build.Some?)
    && (m.build.Some? ==>
        && m.build.value.dockerfileConfigMap == spec.build.value.dockerfileConfigMap
        && |m.build.value.buildArgs| == |spec.build.value.buildArgs|
        && forall i | 0 <= i < |spec.build.value.buildArgs| ::
             var arg := spec.build.value.buildArgs[i];
             m.build.value.buildArgs[i] == BuildArg(arg.name, arg.value))
  }

  lemma {:induction false} BuildArgsCopied(args: seq<OnloadBuildArg>)
    ensures |CopyBuildArgs(args)| == |args|
    ensures forall i | 0 <= i < |args| :: CopyBuildArgs(args)[i] == BuildArg(args[i].name, args[i].value)
  {
    if args != [] {
      BuildArgsCopied(args[1..]);
    }
  }

  /** The Onload Module has one mapping for every entry, builds included. */
  lemma {:induction false} OnloadMappingsMirrorSpec(specs: seq<OnloadKernelMapping>)
    ensures var ms := MapKernels(OnloadKind, specs);
      |ms| == |specs| && forall i | 0 <= i < |specs| :: Mirrors(ms[i], specs[i])
  {
    if specs != [] {
      OnloadMappingsMirrorSpec(specs[1..]);
      if specs[0].build.Some? {
        BuildArgsCopied(specs[0].build.value.buildArgs);
      }
      assert Mirrors(OnloadMapping(specs[0]), specs[0]);
    }
  }

  /** The SFC Module has the mappings of the SFC entries only, in order, with every build dropped. */
  lemma {:induction false} SfcMappingsFilterSpec(specs: seq<OnloadKernelMapping>)
    ensures var ms, kept := MapKernels(SfcKind, specs), SfcEntries(specs);
      && |ms| == |kept|
      && forall i | 0 <= i < |kept| :: ms[i] == KernelMapping(kept[i].regexp, kept[i].kernelModuleImage, None)
  {
    if specs != [] {
      SfcMappingsFilterSpec(specs[1..]);
    }
  }

  /** The SFC Module is used exactly when it would have a mapping. */
  lemma UsesSFCIffMapped(cr: Onload)
    ensures UsesSFC(cr) <==> MapKernels(SfcKind, cr.spec.onload.kernelMappings) != []
  {
    MappedIffSomeSfc(cr.spec.onload.kernelMappings);
  }

  lemma {:induction false} MappedIffSomeSfc(specs: seq<OnloadKernelMapping>)
    ensures MapKernels(SfcKind, specs) != [] <==> exists i | 0 <= i < |specs| :: specs[i].sfc.Some?
  {
    if specs != [] {
      MappedIffSomeSfc(specs[1..]);
      if i :| 0 <= i < |specs[1..]| && specs[1..][i].sfc.Some? {
        assert specs[i + 1].sfc.Some?;
      }
      if i :| 0 <= i < |specs| && specs[i].sfc.Some? {
        assert i == 0 || specs[1..][i - 1].sfc.Some?;
      }
    }
  }

  // ---- Upgrade equals fresh install ----

  /** An edit of the fields an upgrade honours: version, user image, kernel mappings. */
  predicate UpgradeEdit(older: Onload, cr: Onload) {
    cr == older.(spec := older.spec.(onload := older.spec.onload.(
      version := cr.Version(), userImage := cr.spec.onload.userImage,
      kernelMappings := cr.spec.onload.kernelMappings)))
  }

  /** Updating a Module built from the old resource gives what creation would, exactly when the version or nothing relevant changed. */
  lemma ModuleUpgradeIsFreshInstall(older: Onload, cr: Onload, c: ClusterState, kind: ModuleKind)
    requires UpgradeEdit(older, cr) && ModuleUsed(older, kind) && ModuleUsed(cr, kind)
    requires ModuleKey(cr.id, kind) in c.modules
    requires c.modules[ModuleKey(cr.id, kind)] == NewModule(older, kind)
    ensures var d := ApplyAll(PatchOrDeleteModule(cr, c, kind).writes, c);
      && ModuleKey(cr.id, kind) in d.modules
      && (d.modules[ModuleKey(cr.id, kind)] == NewModule(cr, kind) <==>
          || older.Version() != cr.Version()
          || MapKernels(kind, older.spec.onload.kernelMappings) == MapKernels(kind, cr.spec.onload.kernelMappings))
  {
    var ws := PatchOrDeleteModule(cr, c, kind).writes;
    if ws != [] {
      assert ApplyAll(ws, c) == Apply(ws[0], c);
    }
  }

  /** Likewise for the DaemonSet: equal to a fresh one exactly when the version or no image changed. */
  lemma DaemonSetUpgradeIsFreshInstall(older: Onload, cr: Onload, image: string, c: ClusterState)
    requires UpgradeEdit(older, cr)
    requires DevicePluginKey(cr.id) in c.daemonSets
    requires c.daemonSets[DevicePluginKey(cr.id)] == NewDaemonSet(older, image)
    ensures var d := ApplyAll(HandleDevicePluginUpdate(cr, c).writes, c);
      && DevicePluginKey(cr.id) in d.daemonSets
      && (d.daemonSets[DevicePluginKey(cr.id)] == NewDaemonSet(cr, image) <==>
          older.Version() != cr.Version() || older.spec.onload.userImage == cr.spec.onload.userImage)
  {
    var ws := HandleDevicePluginUpdate(cr, c).writes;
    var base := BaseLabels(cr.id, "device-plugin");
    assert base[ONLOAD_VERSION_LABEL := older.Version()][ONLOAD_VERSION_LABEL := cr.Version()]
      == base[ONLOAD_VERSION_LABEL := cr.Version()];
    if ws != [] {
      assert ApplyAll(ws, c) == Apply(ws[0], c);
    }
  }

  // ---- Lengths of names ----

  const LABEL_LIMIT: nat := 63

  /** The part of a label key after the first slash. */
  function NamePart(key: string): string {
    if key == "" then "" else if key[0] == '/' then key[1..] else NamePart(key[1..])
  }

  lemma {:induction false} NamePartFollowsSlash(key: string, i: nat)
    requires i < |key| && key[i] == '/' && '/' !in key[..i]
    ensures NamePart(key) == key[i + 1..]
  {
    if i > 0 {
      assert key[0] in key[..i];
      assert key[1..][..i - 1] == key[..i][1..];
      NamePartFollowsSlash(key[1..], i - 1);
    }
  }

  lemma NamePartLength(key: string, host: string, rest: string)
    requires '/' !in host && key == host + "/" + rest
    ensures |NamePart(key)| == |rest|
  {
    hide NamePart;
    assert key[..|host|] == host;
    NamePartFollowsSlash(key, |host|);
  }

  lemma KmmNamePartLength(id: ObjectKey, kind: ModuleKind)
    ensures |NamePart(KmmLabelName(id, kind))| == |id.namespace| + |id.name| + 23
  {
    hide NamePart, KmmLabelName;
    var prefix, key := KMM_MODULE_LABEL_PREFIX, KmmLabelName(id, kind);
    KmmLabelSplit(id, kind);
    PrefixHost();
    assert key[..22] == prefix[..22] && key[22] == prefix[22];
    NamePartFollowsSlash(key, 22);
  }

  lemma PrefixHost()
    ensures var prefix := KMM_MODULE_LABEL_PREFIX; |prefix| == 37 && prefix[22] == '/' && '/' !in prefix[..22]
  {
  }

  lemma KmmLabelSplit(id: ObjectKey, kind: ModuleKind)
    ensures KmmLabelName(id, kind)
      == KMM_MODULE_LABEL_PREFIX + ("." + id.namespace + "." + id.name + ModuleSuffix(kind))
  {
  }

  lemma OnloadNamePartLength(id: ObjectKey)
    ensures |NamePart(OnloadLabelName(id))| == |id.namespace| + |id.name| + 1
  {
    hide NamePart;
    var rest := id.namespace + "." + id.name;
    assert OnloadLabelName(id) == "onload.amd.com" + "/" + rest;
    NamePartLength(OnloadLabelName(id), "onload.amd.com", rest);
  }

  /** The lengths of the generated label names and values, in terms of the resource's own name. */
  lemma GeneratedLengths(id: ObjectKey)
    ensures forall kind :: |NamePart(KmmLabelName(id, kind))| == |id.namespace| + |id.name| + 23
    ensures |NamePart(OnloadLabelName(id))| == |id.namespace| + |id.name| + 1
    ensures |InstanceLabel(id)| == |id.namespace| + |id.name| + 8
    ensures |DevicePluginName(id)| == |id.name| + 24
    ensures forall kind :: |ModuleName(id, kind)| == |id.name| + 7
  {
    hide NamePart, KmmLabelName, OnloadLabelName;
    forall kind ensures |NamePart(KmmLabelName(id, kind))| == |id.namespace| + |id.name| + 23 {
      KmmNamePartLength(id, kind);
    }
    OnloadNamePartLength(id);
  }

  /** Every resource that passes the 39-character check has only label names and values of legal length. */
  lemma LengthCheckSuffices(id: ObjectKey)
    requires NameFits(id)
    ensures forall key | OwnKey(id, key) :: |NamePart(key)| <= LABEL_LIMIT
    ensures |InstanceLabel(id)| <= LABEL_LIMIT && |DevicePluginName(id)| <= LABEL_LIMIT
    ensures forall kind :: |ModuleName(id, kind)| <= LABEL_LIMIT
    ensures forall kind :: |ModuleName(id, kind)| + |id.namespace| <= NAME_LIMIT
  {
    GeneratedLengths(id);
  }
}
