/**
 * The application registry of core/service/hauth_init.go: route-registration
 * callbacks keyed by application name, registered once each and all invoked
 * at bootstrap.
 */
module Service {
  import opened Wrappers

  /** Registering `f` under `name`: the new map, or None for the duplicate-name panic. */
  function Registered<F(==)>(apps: map<string, F>, name: string, f: F): (r: Option<map<string, F>>)
    ensures r.None? <==> name in apps
    ensures r.Some? ==> r.value.Keys == apps.Keys + {name} && r.value[name] == f
    ensures r.Some? ==> forall n :: n in apps ==> r.value[n] == apps[n]
  {
    if name in apps then None else Some(apps[name := f])
  }

  /** Registration never changes, adds or removes an entry under another name. */
  lemma {:induction false} RegistrationIsLocal<F>(apps: map<string, F>, name: string, f: F, other: string)
    requires other != name
    ensures var r := Registered(apps, name, f);
      r.Some? ==> (other in r.value <==> other in apps) && (other in apps ==> r.value[other] == apps[other])
  {
  }

  /** The process-wide registry (regApp). */
  class AppRegistry<F(==)> {
    var regApp: map<string, F>

    constructor ()
      ensures regApp == map[]
    {
      regApp := map[];
    }

    /** AppRegister: add `registerFunc` under a fresh `name`; a taken name panics and changes nothing. */
    method AppRegister(name: string, registerFunc: F) returns (panicked: bool)
      modifies this
      ensures panicked <==> name in old(regApp)
      ensures panicked ==> regApp == old(regApp)
      ensures !panicked ==> Registered(old(regApp), name, registerFunc) == Some(regApp)
    {
      if name in regApp {
        panicked := true;
      } else {
        panicked := false;
        regApp := regApp[name := registerFunc];
      }
    }

    /**
     * Bootstrap's loop over the registry: the names whose callbacks it invokes,
     * in the order chosen. Every registered callback is invoked exactly once.
     */
    method Bootstrap() returns (invoked: seq<string>)
      ensures forall n :: n in invoked <==> n in regApp
      ensures forall i, j :: 0 <= i < j < |invoked| ==> invoked[i] != invoked[j]
    {
      var pending := regApp.Keys;
      invoked := [];
      while pending != {}
        invariant pending <= regApp.Keys
        invariant forall n :: n in invoked <==> n in regApp && n !in pending
        invariant forall i, j :: 0 <= i < j < |invoked| ==> invoked[i] != invoked[j]
        decreases |pending|
      {
        var key :| key in pending;
        invoked := invoked + [key];
        pending := pending - {key};
      }
    }
  }
}
