/** Choosing the storage provider (services/factory.ts). */
module Factory {
  import opened Wrappers

  /** The three providers the factory can build. */
  datatype ServiceKind = Firebase | Supabase | Local

  /** `ServiceFactory.createService(type)`: `firebase` and `supabase` pick
      the hosted providers, and `local` as well as any other identifier
      falls through to the browser-storage provider. */
  function CreateService(backendType: string): (kind: ServiceKind)
    ensures kind == Firebase <==> backendType == "firebase"
    ensures kind == Supabase <==> backendType == "supabase"
    ensures kind == Local <==> backendType != "firebase" && backendType != "supabase"
  {
    if backendType == "firebase" then Firebase
    else if backendType == "supabase" then Supabase
    else Local
  }

  /** The configured provider of App.tsx: no provider at all when
      `VITE_BACKEND_TYPE` is unset or empty. */
  function ServiceFor(env: Option<string>): (kind: Option<ServiceKind>)
    ensures kind.None? <==> env.None? || env.value == ""
    ensures kind.Some? ==> kind.value == CreateService(env.value)
  {
    if env.None? || env.value == "" then None else Some(CreateService(env.value))
  }
}
