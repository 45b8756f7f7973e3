/** The carrier-to-environment rename of `inject_context_to_env`. The W3C
    carrier that the configured propagator fills in is an input here; the
    rename returns the two trace-context entries under the upper-case names
    that a Kubernetes Pod spec uses for environment variables. */
module Propagator {
  import opened Ascii
  import opened TraceContext

  /** A string-to-string map: the W3C carrier, and the environment built from it. */
  type Carrier = map<string, string>

  /** W3C header names, as the propagator writes them into the carrier. */
  const TraceparentHeader := "traceparent"
  const TracestateHeader := "tracestate"
  const CanonicalHeaders: set<string> := {TraceparentHeader, TracestateHeader}

  /** Environment-variable names under which the two headers are handed on. */
  const TraceparentEnv := "TRACEPARENT"
  const TracestateEnv := "TRACESTATE"
  const EnvNames: set<string> := {TraceparentEnv, TracestateEnv}

  /** The rename table: header name to environment-variable name. */
  const EnvNameOf: map<string, string> := map[TraceparentHeader := TraceparentEnv, TracestateHeader := TracestateEnv]

  /** The rename table renames exactly the two canonical headers, each to its
      upper-cased name, and lower-casing an environment name gives its header back. */
  lemma RenameIsUpperCasing()
    ensures EnvNameOf.Keys == CanonicalHeaders && EnvNameOf.Values == EnvNames
    ensures forall h :: h in EnvNameOf ==> EnvNameOf[h] == Upper(h) && Lower(EnvNameOf[h]) == h
  {
    assert Upper(TraceparentHeader) == TraceparentEnv;
    assert Upper(TracestateHeader) == TracestateEnv;
    assert Lower(TraceparentEnv) == TraceparentHeader;
    assert Lower(TracestateEnv) == TracestateHeader;
  }

  /** Reference definition of the environment view: each canonical header that
      the carrier holds, under its environment name, with its value. */
  ghost function EnvView(carrier: Carrier): (env: Carrier)
  {
    map h | h in EnvNameOf && h in carrier :: EnvNameOf[h] := carrier[h]
  }

  /** The environment view key by key: nothing but the two environment names;
      each present exactly when its header is in the carrier, with the
      header's value unchanged; an empty carrier (no active span, or no
      configured provider) gives an empty environment; a well-formed
      `traceparent` stays well-formed. */
  lemma EnvViewEntries(carrier: Carrier)
    ensures EnvView(carrier).Keys <= EnvNames
    ensures TraceparentEnv in EnvView(carrier) <==> TraceparentHeader in carrier
    ensures TracestateEnv in EnvView(carrier) <==> TracestateHeader in carrier
    ensures TraceparentEnv in EnvView(carrier) ==> EnvView(carrier)[TraceparentEnv] == carrier[TraceparentHeader]
    ensures TracestateEnv in EnvView(carrier) ==> EnvView(carrier)[TracestateEnv] == carrier[TracestateHeader]
    ensures carrier == map[] ==> EnvView(carrier) == map[]
    ensures TraceparentHeader in carrier && WellFormedTraceparent(carrier[TraceparentHeader]) ==>
      WellFormedTraceparent(EnvView(carrier)[TraceparentEnv])
  {
  }

  /** The carrier restricted to the two canonical headers. */
  ghost function CanonicalPart(carrier: Carrier): (part: Carrier)
  {
    map h | h in CanonicalHeaders && h in carrier :: carrier[h]
  }

  /** Lower-cases every key of an environment map whose keys hold no
      lower-case letter (so that lower-casing cannot merge two keys). */
  ghost function LowerKeys(env: Carrier): (lowered: Carrier)
    requires forall k :: k in env ==> NoLowerLetters(k)
  {
    assert forall k :: k in env ==> Upper(Lower(k)) == k by {
      forall k | k in env ensures Upper(Lower(k)) == k {
        UpperUndoesLower(k);
      }
    }
    map k | k in env :: Lower(k) := env[k]
  }

  /** Lower-casing the keys of the environment view gives back exactly the
      carrier's `traceparent` and `tracestate` entries. */
  lemma RenameIsReversible(carrier: Carrier)
    ensures forall k :: k in EnvView(carrier) ==> NoLowerLetters(k)
    ensures LowerKeys(EnvView(carrier)) == CanonicalPart(carrier)
  {
    RenameIsUpperCasing();
  }

  /** The two headers are renamed independently: dropping either one from
      the carrier drops only its own environment entry, so either entry can
      appear without the other. */
  lemma DropOne(carrier: Carrier, h: string)
    requires h in EnvNameOf
    ensures EnvView(carrier - {h}) == EnvView(carrier) - {EnvNameOf[h]}
  {
    var smaller, view := EnvView(carrier - {h}), EnvView(carrier);
    forall k | k in smaller ensures k in view && k != EnvNameOf[h] && smaller[k] == view[k] {
      var h' :| h' in EnvNameOf && h' in carrier - {h} && EnvNameOf[h'] == k;
    }
    forall k | k in view && k != EnvNameOf[h] ensures k in smaller {
      var h' :| h' in EnvNameOf && h' in carrier && EnvNameOf[h'] == k;
    }
  }

  /** Any other carrier entry, W3C baggage for one, leaves no trace in the environment. */
  lemma OtherEntriesAreDropped(carrier: Carrier, key: string, value: string)
    requires key !in CanonicalHeaders
    ensures EnvView(carrier[key := value]) == EnvView(carrier)
  {
  }

  /** `inject_context_to_env` once `propagate.inject` has filled `carrier`. */
  method InjectContextToEnv(carrier: Carrier) returns (envVars: Carrier)
    ensures envVars == EnvView(carrier)
  {
    envVars := map[];
    if TraceparentHeader in carrier {
      envVars := envVars[TraceparentEnv := carrier[TraceparentHeader]];
    }
    if TracestateHeader in carrier {
      envVars := envVars[TracestateEnv := carrier[TracestateHeader]];
    }
  }
}
