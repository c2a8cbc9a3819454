/** The one command of the native shell that computes something: `greet`
    formats a greeting around the caller's name. */
module Greeter {

  const Prefix: string := "Hello, "
  const Suffix: string := "! You've been greeted from Rust!"

  /** `greet(name)`: the name is embedded verbatim, whatever it is (the empty
      name included), between a fixed prefix and a fixed suffix. */
  function Greet(name: string): (r: string)
    ensures |r| == |name| + 39
    ensures r[..7] == "Hello, "
    ensures r[7..7 + |name|] == name
    ensures r[7 + |name|..] == "! You've been greeted from Rust!"
  {
    Prefix + name + Suffix
  }

  /** Strips the fixed prefix and suffix off a greeting. */
  function NameOf(greeting: string): string
    requires |greeting| >= 39
  {
    greeting[7..|greeting| - 32]
  }

  /** The name can be read back from its greeting, so distinct names get
      distinct greetings. */
  lemma {:induction false} NameOfGreet(name: string)
    ensures NameOf(Greet(name)) == name
  {
  }

  lemma {:induction false} GreetInjective(a: string, b: string)
    requires Greet(a) == Greet(b)
    ensures a == b
  {
    NameOfGreet(a);
    NameOfGreet(b);
  }
}
