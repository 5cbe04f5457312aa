# Link-argument assembly of the CppSharp parser, in Dafny

This project models how CppSharp's C++ parser links a compiled object file
into a shared library (`src/CppParser/Link.cpp`). `Parser::Link` takes the
directory and stem of the input path. It then picks a back end from the
target triple: MSVC/COFF for Windows with the MSVC environment, MinGW for
Windows with the GNU environment, ELF for Linux, Mach-O for Darwin and
macOS. The chosen back end pushes its flags one at a time onto an argument
vector and calls lld with it. Each back end is compiled in only on its own
host.

Layout:

- `wrappers.dfy`: `Option` and `OptionToSeq`.
- `sequences.dfy`: three facts about sequence prefixes, used by the loops.
- `paths.dfy` (module `Paths`): a simplified `parent_path`, `stem` and
  `append` (here `Join`), with the lemmas that hold them together.
- `targets.dfy` (module `Targets`): the target triple, the host, the lld
  flavours, `LinkerOptions`, and what the compilation context and the MSVC
  toolchain supply.
- `link_spec.dfy` (module `LinkSpec`): the intended argument vectors as
  functions. The strategy table is `Select`, the compile-time host guards are
  `HostOf`, and the back ends' arguments are `MsvcArgs`, `ElfArgs` and
  `MachOArgs`. `Expected` gives the outcome of a whole link. The lemmas state
  the dispatch, the exact layout of each vector and where the output name
  goes.
- `parser.dfy` (module `Parser`): `Link`, `LinkMSVC`, `LinkELF` and
  `LinkMachO` as imperative methods. The vector the C++ passes by reference
  is an input sequence `args`, and the method returns the extended sequence.
  Like the C++, each builder first fills a local list in a loop and then
  copies it into the vector in a second loop. Each method's postcondition
  ties its result to the `LinkSpec` function.

The lld call is modelled by its outcome. A `LinkCall` names the lld driver
(`Coff`, `Elf`, `MachO`, `MinGW`) and the `canExitEarly` flag it receives;
`None` means no call is made. The arguments of the call are the returned
vector.

Notes on what the code does:

- The object file pushed onto the vector is the frontend's `OutputFile`
  (`ctx.outputFile`), not the `File` parameter. The directory and stem come
  from `File`, so the two paths are separate inputs.
- An unsupported target (Windows with another environment, any other OS)
  raises no error. No call is made and the vector is left as it is.
- The MinGW call passes `canExitEarly = true`; the other three pass `false`.
- The output name depends on the back end, the directory and the stem, not
  only on the OS and the stem.

## Model

| member | source | states |
|---|---|---|
| `Parser.Link` | src/CppParser/Link.cpp:16-56 | The final vector and the lld call equal `Expected`: the selected back end's arguments after the Windows subsystem flag, with the call made only on the back end's host. |
| `Parser.LinkMSVC` | src/CppParser/Link.cpp:58-100 | On a Windows host, appends exactly `MsvcArgs` to the vector and calls the COFF driver without early exit. On any other host, leaves the vector unchanged and makes no call. |
| `Parser.LinkELF` | src/CppParser/Link.cpp:102-134 | On a Linux host, appends exactly `ElfArgs` and calls the ELF driver without early exit. On any other host, leaves the vector unchanged and makes no call. |
| `Parser.LinkMachO` | src/CppParser/Link.cpp:136-170 | On an Apple host, appends exactly `MachOArgs` and calls the Mach-O driver without early exit. On any other host, leaves the vector unchanged and makes no call. |
| `LinkSpec.ExpectedByCase` | src/CppParser/Link.cpp:23-55 | The table-driven `Expected` agrees case by case with the nested switch on OS and environment, including the host guards. |
| `LinkSpec.Dispatch` | src/CppParser/Link.cpp:23-55 | A call is made if and only if Win32+MSVC or Win32+GNU runs on a Windows host, Linux on a Linux host, or Darwin/MacOSX on an Apple host. The call goes to COFF, MinGW (with early exit), ELF or Mach-O. Any other OS gives an empty vector and no call. |
| `LinkSpec.Win32Leading` | src/CppParser/Link.cpp:25-42 | Every Win32 target's vector starts with `-subsystem:windows`. Unless MSVC runs on Windows, that flag is the whole vector, so the MinGW call receives exactly `["-subsystem:windows"]`. |
| `LinkSpec.NoCallNoArgs` | src/CppParser/Link.cpp:44-55 | For a non-Windows target, the vector is empty if and only if no call is made. |
| `LinkSpec.MsvcLibPaths` | src/CppParser/Link.cpp:69-81 | The `-libpath:` entries come in the order toolchain Lib dir, CRT dir (only if found), SDK dir (only if found), then one per caller directory in order. Their count is `1 + [CRT] + [SDK] + \|LibraryDirs\|`. |
| `LinkSpec.MsvcMiddle` | src/CppParser/Link.cpp:80-90 | The `-libpath:` entries come first, then `-dll` and `libcmt.lib`, then one `name.lib` per caller library in order. |
| `LinkSpec.MsvcTail` | src/CppParser/Link.cpp:92-96 | The last two MSVC arguments are the object file and `-out:` + `Join(Dir, Stem + ".dll")`. The length is `(1 + [CRT] + [SDK] + \|LibraryDirs\|) + 2 + \|Libraries\| + 2`. |
| `LinkSpec.ElfLayout` | src/CppParser/Link.cpp:109-130 | The ELF vector is the seven fixed flags (with `-L` + Dir), then `-l` + name per library in order, then the object file, `-o` and `Join(Dir, "lib" + Stem + ".so")`. Its length is `10 + \|Libraries\|`. |
| `LinkSpec.MachOLayout` | src/CppParser/Link.cpp:143-166 | The Mach-O vector is the nine fixed flags (SDK version `10.12.0`, `-L` + Dir), then `-l` + name per library in order, then the object file, `-o` and `Join(Dir, "lib" + Stem + ".dylib")`. Its length is `12 + \|Libraries\|`. |
| `LinkSpec.OutputIsLast` | src/CppParser/Link.cpp:92-166 | Whenever the COFF, ELF or Mach-O driver is called, the last argument is the output argument, a function of the back end, Dir and Stem only. |
| `LinkSpec.OutputIndependent` | src/CppParser/Link.cpp:92-166 | Changing or reordering the libraries or library directories, or changing the object file or toolchain, never changes whether a call is made or what the output argument is. |
| `LinkSpec.UnixIgnoresLibraryDirs` | src/CppParser/Link.cpp:102-170 | For non-Windows targets, the caller's `LibraryDirs` have no effect on the outcome. |
| `LinkSpec.ElfExample` | src/CppParser/Link.cpp:109-132 | A file in `/build/out` with stem `mylib`, linked against `m` on Linux, gives exactly the eleven arguments from `-flavor gnu` to `/build/out/libmylib.so`, and an ELF call. |
| `LinkSpec.ExamplePath` | src/CppParser/Link.cpp:19-20 | `/build/out/mylib.o` has directory `/build/out` and stem `mylib`. |
| `LinkSpec.Prefixed` | src/CppParser/Link.cpp:118-122 | Gives one entry per element, in order, each being the prefix followed by that element. It covers `-l` + library here and `-libpath:` + directory in the MSVC builder. |
| `LinkSpec.Suffixed` | src/CppParser/Link.cpp:86-90 | Gives one entry per element, in order, each being that element followed by the suffix (`.lib`). |
| `Paths.Stem` | src/CppParser/Link.cpp:20 | The stem is a prefix of the file name and contains no separator. `StemAndExtension` adds that the cut is at the last dot. |
| `Paths.FileName` | src/CppParser/Link.cpp:20 | The file name contains no separator, and a path without a separator is its own file name. |
| `Paths.LastIndexOf` | src/CppParser/Link.cpp:19-20 | The result is the position of the last occurrence of the character, and it is `None` exactly when the character does not occur. |
| `Paths.StemAndExtension` | src/CppParser/Link.cpp:20 | Stem followed by extension is the file name, cut at the last dot: the extension is empty or starts with a dot and holds no other dot, and a name with a dot (other than `.` and `..`) has a non-empty extension. A name without a dot is its own stem. |
| `Paths.JoinParentFileName` | src/CppParser/Link.cpp:19-20 | Joining a path's parent and file name gives the path back, when no two separators are adjacent. |
| `Paths.Reassemble` | src/CppParser/Link.cpp:19-20 | Joining the parent with stem plus extension gives the path back, when no two separators are adjacent. |
| `Paths.FileNameOfJoin` | src/CppParser/Link.cpp:93-94 | The file name of `Join(dir, name)` is `name`, so each output path names the platform file it was built with. |
| `Paths.ParentOfJoin` | src/CppParser/Link.cpp:127-128 | The parent of `Join(dir, name)` is `dir`, for any separator-free name and any directory that is empty, the root, or does not end in a separator. |
| `Paths.ParentPath` | src/CppParser/Link.cpp:19 | The parent is a prefix of the path. It is empty exactly when the path has no separator. |
| `Paths.ParentPathIsDirectory` | src/CppParser/Link.cpp:19 | The parent of a path without doubled separators is empty, the root, or does not end in a separator, so `ParentOfJoin` applies to it. |
| `Paths.JoinShape` | src/CppParser/Link.cpp:93-94 | `Join(dir, name)` starts with `dir` and ends with `name`. A single separator stands between them exactly when `dir` is non-empty and does not already end in one. This is how `sys::path::append` builds all three output paths (also lines 127-128 and 163-164). |
| `LinkSpec.OutputInInputDirectory` | src/CppParser/Link.cpp:93-96 | For the COFF, ELF and Mach-O back ends, the parent of the output path is the parent of the input file, whenever the input has no doubled separators. The library is written next to the input. |

## Left out

- The lld calls themselves (`lld::coff::link`, `lld::elf::link`, `lld::mach_o::link`, `lld::mingw::link`), their `outs()`/`errs()` streams and their results. These are foreign library calls doing I/O. Each is modelled only as a `LinkCall` tag with its `canExitEarly` flag, and the C++ discards their results anyway.
- MSVC toolchain discovery (`driver::Driver`, `MSVCToolChain`, `getSubDirectoryPath`, `getUniversalCRTLibraryPath`, `getWindowsSDKLibraryPath`) depends on the filesystem and registry. Its results are the inputs `MsvcToolchain(libDir, crtDir, sdkDir)`, and a failed CRT or SDK lookup is `None`.
- The compilation context (`c->getTarget()`, `c->getFrontendOpts().OutputFile`) is the input `Context`, and the preprocessor host guards are the input `Host` (one host at a time).
- Paths.Stem: LLVM's `parent_path`, `stem` and `append` are not part of this model. They are approximated by a split at the last '/' and the last '.', with only '/' as separator. Root names, trailing separators (LLVM's file name ".") and separators at the start of the appended name are not modelled.
- The lifetime of the `const char*` pointers taken with `.data()` from local strings is a C++ memory detail. The model works on string values.
- Locking, concurrency, cancellation and an error-result type: the code has none of them. The model has no shared state, so separate calls cannot interfere.
- The MSVC output path: on a Windows host, `sys::path::append` inserts `\` and `parent_path` also splits at `\`. The model uses only `/`, so the `-out:` path it gives has `/` where the Windows build would put `\`.
- `LinkerOptions` is a pointer in the code, dereferenced without a check (`src/CppParser/Link.cpp` lines 78, 87, 119 and 155). The model takes it as a value, so a null pointer cannot be represented.
