/**
 * The linker driver: `Link` picks a back end from the target triple and each
 * back end appends its arguments to the vector it is handed, one push at a
 * time, then calls lld with it. The vector passed by reference is modelled as
 * an input sequence `args` and the extended sequence `newArgs`; the lld call
 * is returned as `call` (None when no call is made).
 */
module Parser {
  import opened Wrappers
  import opened Paths
  import opened Targets
  import opened LinkSpec
  import opened Sequences

  /** Appends the MSVC arguments and calls the COFF driver; compiled in only on a Windows host. */
  method LinkMSVC(options: LinkerOptions, args: seq<string>, dir: string, stem: string, host: Host, ctx: Context)
    returns (newArgs: seq<string>, call: Option<LinkCall>)
    ensures host == WindowsHost ==>
      newArgs == args + MsvcArgs(options, ctx.toolchain, ctx.outputFile, dir, stem) && call == Some(LinkCall(Coff, false))
    ensures host != WindowsHost ==> newArgs == args && call == None
  {
    if host != WindowsHost {
      return args, None;
    }
    var tc := ctx.toolchain;
    // `dirs` is the list of directories the `-libpath:` entries so far stand for.
    ghost var dirs: seq<string> := [];
    var libraryPaths: seq<string> := [];
    PrefixedSnoc("-libpath:", dirs, tc.libDir);
    libraryPaths, dirs := libraryPaths + ["-libpath:" + tc.libDir], dirs + [tc.libDir];
    if tc.crtDir.Some? {
      PrefixedSnoc("-libpath:", dirs, tc.crtDir.value);
      libraryPaths, dirs := libraryPaths + ["-libpath:" + tc.crtDir.value], dirs + [tc.crtDir.value];
    }
    if tc.sdkDir.Some? {
      PrefixedSnoc("-libpath:", dirs, tc.sdkDir.value);
      libraryPaths, dirs := libraryPaths + ["-libpath:" + tc.sdkDir.value], dirs + [tc.sdkDir.value];
    }
    assert dirs == [tc.libDir] + OptionToSeq(tc.crtDir) + OptionToSeq(tc.sdkDir);
    for i := 0 to |options.libraryDirs|
      invariant libraryPaths == Prefixed("-libpath:", dirs + options.libraryDirs[..i])
    {
      AppendTakeNext(dirs, options.libraryDirs, i);
      PrefixedSnoc("-libpath:", dirs + options.libraryDirs[..i], options.libraryDirs[i]);
      libraryPaths := libraryPaths + ["-libpath:" + options.libraryDirs[i]];
    }
    TakeAll(options.libraryDirs);
    newArgs := args;
    for i := 0 to |libraryPaths|
      invariant newArgs == args + libraryPaths[..i]
    {
      AppendTakeNext(args, libraryPaths, i);
      newArgs := newArgs + [libraryPaths[i]];
    }
    TakeAll(libraryPaths);

    newArgs := newArgs + ["-dll"];
    newArgs := newArgs + ["libcmt.lib"];

    var libraries: seq<string> := [];
    for i := 0 to |options.libraries|
      invariant libraries == Suffixed(options.libraries[..i], ".lib")
    {
      TakeNext(options.libraries, i);
      SuffixedSnoc(options.libraries[..i], options.libraries[i], ".lib");
      libraries := libraries + [options.libraries[i] + ".lib"];
    }
    TakeAll(options.libraries);
    var middle := newArgs;
    for i := 0 to |libraries|
      invariant newArgs == middle + libraries[..i]
    {
      AppendTakeNext(middle, libraries, i);
      newArgs := newArgs + [libraries[i]];
    }
    TakeAll(libraries);

    newArgs := newArgs + [ctx.outputFile];
    var output := Join(dir, stem + ".dll");
    newArgs := newArgs + ["-out:" + output];
    MsvcArgsInPushOrder(args, options, tc, ctx.outputFile, dir, stem);
    call := Some(LinkCall(Coff, false));
  }

  /** The MSVC arguments written as the pushes build them, one step at a time. */
  lemma MsvcArgsInPushOrder(args: seq<string>, options: LinkerOptions, tc: MsvcToolchain, objectFile: string, dir: string, stem: string)
    ensures args + MsvcArgs(options, tc, objectFile, dir, stem) ==
      args + Prefixed("-libpath:", MsvcLibraryDirs(tc, options)) + ["-dll"] + ["libcmt.lib"]
      + Suffixed(options.libraries, ".lib") + [objectFile] + ["-out:" + Join(dir, stem + ".dll")]
  {
  }

  /** Appends the ELF arguments and calls the GNU-flavoured ELF driver; compiled in only on a Linux host. */
  method LinkELF(options: LinkerOptions, args: seq<string>, dir: string, stem: string, host: Host, ctx: Context)
    returns (newArgs: seq<string>, call: Option<LinkCall>)
    ensures host == LinuxHost ==>
      newArgs == args + ElfArgs(options, ctx.outputFile, dir, stem) && call == Some(LinkCall(Elf, false))
    ensures host != LinuxHost ==> newArgs == args && call == None
  {
    if host != LinuxHost {
      return args, None;
    }
    newArgs := args;
    newArgs := newArgs + ["-flavor gnu"];
    newArgs := newArgs + ["-L/usr/lib/x86_64-linux-gnu"];
    newArgs := newArgs + ["-lc"];
    newArgs := newArgs + ["--shared"];
    var linkingDir := "-L" + dir;
    newArgs := newArgs + [linkingDir];
    newArgs := newArgs + ["-rpath"];
    newArgs := newArgs + ["."];

    var libraries: seq<string> := [];
    for i := 0 to |options.libraries|
      invariant libraries == Prefixed("-l", options.libraries[..i])
    {
      TakeNext(options.libraries, i);
      PrefixedSnoc("-l", options.libraries[..i], options.libraries[i]);
      libraries := libraries + ["-l" + options.libraries[i]];
    }
    TakeAll(options.libraries);
    var prefix := newArgs;
    for i := 0 to |libraries|
      invariant newArgs == prefix + libraries[..i]
    {
      AppendTakeNext(prefix, libraries, i);
      newArgs := newArgs + [libraries[i]];
    }
    TakeAll(libraries);

    newArgs := newArgs + [ctx.outputFile];
    newArgs := newArgs + ["-o"];
    var output := Join(dir, "lib" + stem + ".so");
    newArgs := newArgs + [output];
    ElfArgsInPushOrder(args, options, ctx.outputFile, dir, stem);
    call := Some(LinkCall(Elf, false));
  }

  /** The ELF arguments written as the pushes build them, one step at a time. */
  lemma ElfArgsInPushOrder(args: seq<string>, options: LinkerOptions, objectFile: string, dir: string, stem: string)
    ensures args + ElfArgs(options, objectFile, dir, stem) ==
      args + ["-flavor gnu"] + ["-L/usr/lib/x86_64-linux-gnu"] + ["-lc"] + ["--shared"] + ["-L" + dir] + ["-rpath"] + ["."]
      + Prefixed("-l", options.libraries) + [objectFile] + ["-o"] + [Join(dir, "lib" + stem + ".so")]
  {
  }

  /** Appends the Mach-O arguments and calls the Darwin driver; compiled in only on an Apple host. */
  method LinkMachO(options: LinkerOptions, args: seq<string>, dir: string, stem: string, host: Host, ctx: Context)
    returns (newArgs: seq<string>, call: Option<LinkCall>)
    ensures host == AppleHost ==>
      newArgs == args + MachOArgs(options, ctx.outputFile, dir, stem) && call == Some(LinkCall(MachO, false))
    ensures host != AppleHost ==> newArgs == args && call == None
  {
    if host != AppleHost {
      return args, None;
    }
    newArgs := args;
    newArgs := newArgs + ["-flavor darwinnew"];
    newArgs := newArgs + ["-lc++"];
    newArgs := newArgs + ["-lSystem"];
    newArgs := newArgs + ["-dylib"];
    newArgs := newArgs + ["-sdk_version"];
    newArgs := newArgs + ["10.12.0"];
    var linkingDir := "-L" + dir;
    newArgs := newArgs + [linkingDir];
    newArgs := newArgs + ["-rpath"];
    newArgs := newArgs + ["."];

    var libraries: seq<string> := [];
    for i := 0 to |options.libraries|
      invariant libraries == Prefixed("-l", options.libraries[..i])
    {
      TakeNext(options.libraries, i);
      PrefixedSnoc("-l", options.libraries[..i], options.libraries[i]);
      libraries := libraries + ["-l" + options.libraries[i]];
    }
    TakeAll(options.libraries);
    var prefix := newArgs;
    for i := 0 to |libraries|
      invariant newArgs == prefix + libraries[..i]
    {
      AppendTakeNext(prefix, libraries, i);
      newArgs := newArgs + [libraries[i]];
    }
    TakeAll(libraries);

    newArgs := newArgs + [ctx.outputFile];
    newArgs := newArgs + ["-o"];
    var output := Join(dir, "lib" + stem + ".dylib");
    newArgs := newArgs + [output];
    MachOArgsInPushOrder(args, options, ctx.outputFile, dir, stem);
    call := Some(LinkCall(MachO, false));
  }

  /** The Mach-O arguments written as the pushes build them, one step at a time. */
  lemma MachOArgsInPushOrder(args: seq<string>, options: LinkerOptions, objectFile: string, dir: string, stem: string)
    ensures args + MachOArgs(options, objectFile, dir, stem) ==
      args + ["-flavor darwinnew"] + ["-lc++"] + ["-lSystem"] + ["-dylib"] + ["-sdk_version"] + ["10.12.0"]
      + ["-L" + dir] + ["-rpath"] + ["."]
      + Prefixed("-l", options.libraries) + [objectFile] + ["-o"] + [Join(dir, "lib" + stem + ".dylib")]
  {
  }

  /**
   * Links `file`: derives its directory and stem, then dispatches on the
   * target's operating system and, for Windows, its environment.
   */
  method Link(file: string, options: LinkerOptions, ctx: Context, host: Host)
    returns (args: seq<string>, call: Option<LinkCall>)
    ensures Invocation(args, call) == Expected(file, options, ctx, host)
  {
    args := [];
    call := None;
    var dir := ParentPath(file);
    var stem := Stem(file);
    ExpectedByCase(file, options, ctx, host);

    match ctx.triple.os {
      case Win32 =>
        args := args + [SubsystemWindows];
        assert args == [SubsystemWindows];
        match ctx.triple.environment {
          case MSVC =>
            args, call := LinkMSVC(options, args, dir, stem, host, ctx);
          case GNU =>
            if host == WindowsHost {
              call := Some(LinkCall(MinGW, true));
            }
          case OtherEnvironment =>
        }
      case Linux =>
        args, call := LinkELF(options, args, dir, stem, host, ctx);
      case Darwin =>
        args, call := LinkMachO(options, args, dir, stem, host, ctx);
      case MacOSX =>
        args, call := LinkMachO(options, args, dir, stem, host, ctx);
      case OtherOS =>
    }
  }
}
