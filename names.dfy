/** GraphQL operation and type names derived from a resource name. The case-conversion
    and singularisation libraries are outside this model: they enter as a `Naming` value
    holding four arbitrary string functions, so every property proved here holds whatever
    those libraries do. */
module Names {

  /** `camelCase`, `pascalCase` and `capitalCase` of change-case, `singular` of pluralize. */
  datatype Naming = Naming(
    camelCase: string -> string,
    pascalCase: string -> string,
    capitalCase: string -> string,
    singular: string -> string)

  /** The capitalised singular that prefixes every input-type name of a resource. */
  function TypePrefix(n: Naming, resource: string): string {
    n.pascalCase(n.singular(resource))
  }

  /** A GraphQL input-type name of the resource, such as `PostWhereInput`. */
  function TypeName(n: Naming, resource: string, suffix: string): string {
    TypePrefix(n, resource) + suffix
  }

  function CreateName(n: Naming, resource: string): string {
    n.camelCase("create-" + n.singular(resource))
  }

  function UpdateName(n: Naming, resource: string): string {
    n.camelCase("update-" + n.singular(resource))
  }

  function DeleteName(n: Naming, resource: string): string {
    n.camelCase("delete-" + n.singular(resource))
  }

  function ConnectionName(n: Naming, resource: string): string {
    n.camelCase(resource) + "Connection"
  }
}
