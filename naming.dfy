/**
 * The naming resolver: a template file name carries a placeholder token
 * that is replaced, first occurrence only, by a case-transformed entity name.
 */
module Naming {
  import opened Strings
  import opened Structure

  /** The four placeholders of template file names. */
  datatype Placeholder = DomainPlaceholder | DtoPlaceholder | DataPlaceholder | DatabasePlaceholder

  function Token(p: Placeholder): (t: string)
    ensures |t| > 0
  {
    match p
    case DomainPlaceholder => "___"
    case DtoPlaceholder => "---"
    case DataPlaceholder => "==="
    case DatabasePlaceholder => "database"
  }

  /** Kebab case for domain and database names, camel case for class names. */
  function Casing(p: Placeholder, env: Env): string -> string
  {
    match p
    case DomainPlaceholder => env.kebabCase
    case DtoPlaceholder => env.camelCase
    case DataPlaceholder => env.camelCase
    case DatabasePlaceholder => env.kebabCase
  }

  /** The output file name of template `fileName` for entity `name`. */
  function ResolveFileName(p: Placeholder, fileName: string, name: string, env: Env): (r: string)
    ensures !Contains(fileName, Token(p)) ==> r == fileName
    ensures Contains(fileName, Token(p)) ==> |r| == |fileName| - |Token(p)| + |Casing(p, env)(name)|
  {
    ReplaceFirst(fileName, Token(p), Casing(p, env)(name))
  }

  /** With the token's first occurrence right after `pre`, the cased name takes its place. */
  lemma ResolveFileNameAt(p: Placeholder, fileName: string, name: string, env: Env, pre: string, post: string)
    requires fileName == pre + Token(p) + post
    requires forall j: nat :: j < |pre| ==> !OccursAt(fileName, Token(p), j)
    ensures ResolveFileName(p, fileName, name, env) == pre + Casing(p, env)(name) + post
  {
    ReplaceFirstAt(fileName, Token(p), Casing(p, env)(name), pre, post);
  }

  /** A file name that begins with the token: the cased name replaces it. */
  lemma ResolveLeadingToken(p: Placeholder, post: string, name: string, env: Env)
    ensures ResolveFileName(p, Token(p) + post, name, env) == Casing(p, env)(name) + post
  {
    ResolveFileNameAt(p, Token(p) + post, name, env, "", post);
  }

  /** A second token in a DTO template name survives: only the first is replaced. */
  lemma DtoSecondTokenKept(name: string, env: Env)
    ensures ResolveFileName(DtoPlaceholder, "---.---.ts", name, env) == env.camelCase(name) + ".---.ts"
  {
    ResolveLeadingToken(DtoPlaceholder, ".---.ts", name, env);
  }

  /** A domain template named without the token keeps its name for every domain. */
  lemma DomainNameWithoutToken(name: string, env: Env)
    ensures ResolveFileName(DomainPlaceholder, "index.ts", name, env) == "index.ts"
  {
    assert !Contains("index.ts", "___") by {
      forall j: nat | j <= |"index.ts"| ensures !OccursAt("index.ts", "___", j) {
        if j + 3 <= 8 {
          assert "index.ts"[j] != '_';
        }
      }
    }
  }
}
