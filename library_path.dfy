/**
 * Selection of the native library that backs the local service: an explicit
 * path in a system property wins; otherwise a fixed directory and a file name
 * chosen by the operating system name, and an error for any other system.
 */
module LibraryPath {
  import opened Wrappers

  /** System properties: a key that is absent reads as `null`. */
  type Properties = map<string, string>

  const PathProperty: string := "zetasql.local_service.path"
  const OsNameProperty: string := "os.name"

  const LibraryDir: string := "/zetasql/local_service/"
  const LinuxLibrary: string := "liblocal_service_jni.so"
  const MacLibrary: string := "liblocal_service_jni.dylib"
  const UnsupportedOs: string := "Unsupported os"

  /** `System.getProperty(key)`. */
  function GetProperty(properties: Properties, key: string): Option<string> {
    if key in properties then Some(properties[key]) else None
  }

  /** The operating systems that have a bundled library. */
  predicate SupportedOs(os: Option<string>) {
    os == Some("Linux") || os == Some("Mac OS X")
  }

  /** The path of the native library to load, or the exception that ends the lookup. */
  function GetLibraryPath(properties: Properties): (r: Result<string, Exception>)
    // an override is returned unchanged, whatever the operating system
    ensures PathProperty in properties ==> r == Success(properties[PathProperty])
    // without an override the lookup succeeds exactly on the two supported systems
    ensures PathProperty !in properties ==>
              (r.Success? <==> SupportedOs(GetProperty(properties, OsNameProperty)))
    ensures PathProperty !in properties && GetProperty(properties, OsNameProperty) == Some("Linux") ==>
              r == Success("/zetasql/local_service/liblocal_service_jni.so")
    ensures PathProperty !in properties && GetProperty(properties, OsNameProperty) == Some("Mac OS X") ==>
              r == Success("/zetasql/local_service/liblocal_service_jni.dylib")
    // the only failure is the unsupported-system error, and it returns no path
    ensures r.Failure? ==> PathProperty !in properties && r.error == RuntimeException("Unsupported os")
  {
    var path := GetProperty(properties, PathProperty);
    if path.Some? then Success(path.value)
    else
      var os := GetProperty(properties, OsNameProperty);
      DefaultPathsSpelledOut();
      if os == Some("Linux") then Success(LibraryDir + LinuxLibrary)
      else if os == Some("Mac OS X") then Success(LibraryDir + MacLibrary)
      else Failure(RuntimeException(UnsupportedOs))
  }

  /** The directory and the file names joined give exactly the two default paths. */
  lemma DefaultPathsSpelledOut()
    ensures LibraryDir + LinuxLibrary == "/zetasql/local_service/liblocal_service_jni.so"
    ensures LibraryDir + MacLibrary == "/zetasql/local_service/liblocal_service_jni.dylib"
  {
  }

  /** With an override set, changing or removing the operating system name changes nothing. */
  lemma OverrideIgnoresOs(properties: Properties, os: Option<string>)
    requires PathProperty in properties
    ensures var changed := if os.Some? then properties[OsNameProperty := os.value]
                           else properties - {OsNameProperty};
            GetLibraryPath(changed) == GetLibraryPath(properties) == Success(properties[PathProperty])
  {
  }

  /** A default path lies in the library directory and names the library of the running system. */
  lemma DefaultPathShape(properties: Properties)
    requires PathProperty !in properties
    requires GetLibraryPath(properties).Success?
    ensures var p := GetLibraryPath(properties).value;
            |LibraryDir| < |p| && p[..|LibraryDir|] == LibraryDir &&
            (p[|LibraryDir|..] == LinuxLibrary <==> GetProperty(properties, OsNameProperty) == Some("Linux")) &&
            (p[|LibraryDir|..] == MacLibrary <==> GetProperty(properties, OsNameProperty) == Some("Mac OS X"))
  {
  }

  /** Only the two properties named above are consulted. */
  lemma OnlyTwoPropertiesRead(p1: Properties, p2: Properties)
    requires GetProperty(p1, PathProperty) == GetProperty(p2, PathProperty)
    requires GetProperty(p1, OsNameProperty) == GetProperty(p2, OsNameProperty)
    ensures GetLibraryPath(p1) == GetLibraryPath(p2)
  {
  }
}
