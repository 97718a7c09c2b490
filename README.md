# Bean property handles and per-predicate graph traversal

This project models three pieces of the lis-commons library in Dafny and proves what they promise.

- **The bean wrapper** (`Bean.java`) holds a target object. The target is either given at construction or created lazily from the bean's class. The wrapper resolves property names to handles through the class's descriptor table and caches the handles it builds in two maps: plain handles by name, and indexed handles by name in both maps.
- **The property handle** (`Property.java`) binds one target to one property descriptor. It reads and writes the property through the descriptor's optional getter and setter. A missing accessor becomes a causeless access error, and a failing invocation becomes an error that carries its cause. The handle also works out the property's declared type once and caches it.
- **The graph facade** (`GraphFacade.java`) runs a closure over every node a traversal yields. It also builds the per-predicate iterator: for each predicate in turn, that iterator traverses the graph afresh from one start node and yields the nodes that match.

Files:

- `wrappers.dfy`: `Option`, `Result` and `Outcome`.
- `property_access.dfy` (module `PropertyAccess`):
  - descriptors and their accessors;
  - the target object `BeanObject`, a class whose field map a successful write updates;
  - the specification functions of reading, writing and typing a property;
  - the class `Property`.
- `bean_wrapper.dfy` (module `BeanWrapper`): the class `Bean`, whose two caches and optional target are fields that its methods update.
- `graph_facade.dfy` (module `GraphFacade`):
  - `ForAllDo` and `PerPredicateNodeIterator` as loops, proved against the functions `Fold` and `PerPredicate`;
  - lemmas about those functions;
  - the worked example from the facade's documentation.

How the external parts are represented:

- **Reflection becomes data.** An accessor says what invoking it does: it returns or stores a named field of the target, or it throws a cause.
- **Traversal order is a parameter.** The breadth-first and depth-first orders are a function `traverse(strategy, start)`.
- **An iterator is the sequence it yields.**
- **A closure is a step function.** It maps a state and a node to the next state.

## Model

| member | source | states |
|---|---|---|
| PropertyAccess.ReadAccess | lis-commons-beans/src/main/java/com/link_intersystems/beans/Property.java:151-165 | Reading fails with a READ error naming the property. The error has no cause iff there is no getter, and carries the getter's cause when it throws. Otherwise the read succeeds with the value of the field the getter returns. |
| PropertyAccess.WriteAccess | lis-commons-beans/src/main/java/com/link_intersystems/beans/Property.java:195-208 | Writing fails with a WRITE error naming the property. The error has no cause iff there is no setter, and carries the setter's cause when it throws. Otherwise the written field holds the value and every other field is unchanged. |
| PropertyAccess.Property.SetValue | lis-commons-beans/src/main/java/com/link_intersystems/beans/Property.java:195-208 | On success the target's fields become those WriteAccess computes. On any access error the error is reported and the target is untouched. |
| PropertyAccess.DeclaredType | lis-commons-beans/src/main/java/com/link_intersystems/beans/Property.java:117-123 | The type is the getter's return type when there is a getter, else the setter's first parameter type. It is an error exactly when there is no getter and either no setter or a setter without parameters. |
| PropertyAccess.Property.GetType | lis-commons-beans/src/main/java/com/link_intersystems/beans/Property.java:114-128 | Returns DeclaredType. A type already cached is returned unchanged and the cache stays as it was. After a successful call the cache holds the type; the cached type always equals DeclaredType. |
| PropertyAccess.Property.constructor | lis-commons-beans/src/main/java/com/link_intersystems/beans/Property.java:76-81 | Binds the given target and descriptor. The type is not computed yet. |
| PropertyAccess.Property.Indexed | lis-commons-beans/src/main/java/com/link_intersystems/beans/Bean.java:105-109 | An indexed handle can only be built from an indexed descriptor. It binds the target and the descriptor and is marked indexed. |
| PropertyAccess.BeanObject.constructor | lis-commons-beans/src/main/java/com/link_intersystems/beans/Bean.java:40 | A target object of the given class whose fields hold the given values. |
| PropertyAccess.Property.GetName | lis-commons-beans/src/main/java/com/link_intersystems/beans/Property.java:136-138 | The name is the descriptor's name, and every read error of the handle names that property. |
| PropertyAccess.Property.GetValue | lis-commons-beans/src/main/java/com/link_intersystems/beans/Property.java:151-165 | A failed read is a READ error naming the handle's property. It has no cause exactly when the handle is not readable. A read succeeds exactly when the getter returns a field, and then yields that field's value in the target. |
| PropertyAccess.Property.IsReadable | lis-commons-beans/src/main/java/com/link_intersystems/beans/Property.java:229-231 | True iff there is a getter, which is exactly when no read of any target fails without a cause. |
| PropertyAccess.Property.IsWritable | lis-commons-beans/src/main/java/com/link_intersystems/beans/Property.java:238-240 | True iff there is a setter, which is exactly when no write of any value to any target fails without a cause. |
| PropertyAccess.Property.ToString | lis-commons-beans/src/main/java/com/link_intersystems/beans/Property.java:246-248 | The rendering is the property's name. |
| PropertyAccess.Property.FormatTo | lis-commons-beans/src/main/java/com/link_intersystems/beans/Property.java:214-218 | The formatted handle is the target's class name, a dot, then the property's name. |
| PropertyAccess.WriteThenRead | lis-commons-beans/src/main/java/com/link_intersystems/beans/Property.java:36-42 | When the getter and setter share one backing field, a write succeeds, and reading back yields the value written. |
| PropertyAccess.WriteLeavesOtherPropertiesAlone | lis-commons-beans/src/main/java/com/link_intersystems/beans/Property.java:201-202 | A successful write leaves every property backed by another field reading exactly as before. |
| BeanWrapper.Bean.FromInstance | lis-commons-beans/src/main/java/com/link_intersystems/beans/Bean.java:56-60 | The given instance becomes the target. Both caches start empty. |
| BeanWrapper.Bean.FromClass | lis-commons-beans/src/main/java/com/link_intersystems/beans/Bean.java:72-75 | The target stays absent, so nothing is instantiated at construction. Both caches start empty. |
| BeanWrapper.Bean.GetTarget | lis-commons-beans/src/main/java/com/link_intersystems/beans/Bean.java:180-186 | It succeeds iff a target exists or the class can be instantiated. A present target is returned unchanged; otherwise a fresh default instance is made and bound. A failed construction leaves the target absent. |
| BeanWrapper.Bean.GetPropertyInternal | lis-commons-beans/src/main/java/com/link_intersystems/beans/Bean.java:166-178 | A cached handle is returned and nothing changes. An unknown name yields null and nothing changes. Otherwise the target is materialised (a target created here holds the default instance's fields) and a fresh plain handle for the name's descriptor, with its type not yet computed, is cached under the name. Every cached handle keeps its own invariant, so its type can be asked for. |
| BeanWrapper.Bean.GetIndexedPropertyInternal | lis-commons-beans/src/main/java/com/link_intersystems/beans/Bean.java:98-115 | As the plain lookup, but only an indexed descriptor resolves; for an unknown name the descriptor lookup either yields null or raises not-found, and then nothing changes. The target is materialised as in the plain lookup, and the fresh indexed handle, with its type not yet computed, is cached under the name in both caches. |
| BeanWrapper.Bean.GetProperty | lis-commons-beans/src/main/java/com/link_intersystems/beans/Bean.java:129-135 | Not-found is raised iff the class has no descriptor for the name, and then nothing changes. A repeated lookup returns the identical cached handle. The handle's name is the name asked for, and its type can be asked for. A target it creates holds the default instance's fields. |
| BeanWrapper.Bean.GetPropertyAsWritten | lis-commons-beans/src/main/java/com/link_intersystems/beans/Bean.java:129-135 | As GetProperty for a known name: it resolves as the plain lookup does, fails only when the target cannot be instantiated, and a target it creates holds the default instance's fields. It fails with any other error exactly for an unknown name; that error is built from the target's class, a null dereference when there is no target, and nothing changes. |
| BeanWrapper.Bean.GetIndexedProperty | lis-commons-beans/src/main/java/com/link_intersystems/beans/Bean.java:89-95 | Not-found is raised iff the class has no indexed descriptor for the name, including a name whose descriptor is plain, and then nothing changes. A successful result is an indexed handle with the name asked for. A target it creates holds the default instance's fields. |
| BeanWrapper.Bean.GetIndexedPropertyAsWritten | lis-commons-beans/src/main/java/com/link_intersystems/beans/Bean.java:89-95 | As GetIndexedProperty, except that when the descriptor lookup yields null for a name, the not-found error is built from the target's class. With no target that is a null dereference. When the lookup raises not-found itself, that error escapes. A target it creates holds the default instance's fields. |
| BeanWrapper.Bean.HasProperty | lis-commons-beans/src/main/java/com/link_intersystems/beans/Bean.java:152-154 | Answers true iff the class has a descriptor for the name. A true answer leaves the handle cached and the target materialised, a created target holding the default instance's fields; a false answer changes nothing; a failed instantiation propagates. |
| BeanWrapper.Bean.HasIndexedProperty | lis-commons-beans/src/main/java/com/link_intersystems/beans/Bean.java:161-163 | Answers true iff the class has an indexed descriptor for the name. A true answer leaves the indexed handle cached in both caches and the target materialised, a created target holding the default instance's fields. For a name without a descriptor it answers false, or fails with not-found when the descriptor lookup raises it. |
| BeanWrapper.Bean.HasAnyProperty | lis-commons-beans/src/main/java/com/link_intersystems/beans/Bean.java:143-145 | It is the plain probe, then the indexed probe only when the plain one answers false. It answers true iff the class has a descriptor for the name, and the indexed cache never changes. A true answer may create the target, which then holds the default instance's fields. For an unknown name it answers false, or fails with not-found when the descriptor lookup raises it, and changes nothing. |
| BeanWrapper.Bean.GetBeanClass | lis-commons-beans/src/main/java/com/link_intersystems/beans/Bean.java:192-194 | Returns the class fixed at construction and changes nothing. |
| BeanWrapper.Bean.NotFoundAsWritten | lis-commons-beans/src/main/java/com/link_intersystems/beans/Bean.java:132 | The error built from the target's class is a null dereference exactly when there is no target, and otherwise the not-found error naming the target's class and the name. |
| BeanWrapper.NotFoundAgreesOnceBound | lis-commons-beans/src/main/java/com/link_intersystems/beans/Bean.java:132 | Once a target is bound, the not-found error built from the target's class equals the one built from the bean's class. |
| BeanWrapper.LazyWrapperUnknownName | lis-commons-beans/src/main/java/com/link_intersystems/beans/Bean.java:129-135 | On a wrapper made from a class, an unknown name gives a null dereference as written and not-found once corrected. A name with no indexed descriptor does the same on the indexed lookup, unless the descriptor lookup raises not-found itself. |
| BeanWrapper.PlainThenIndexedLookup | lis-commons-beans/src/main/java/com/link_intersystems/beans/Bean.java:108-111 | A repeated plain lookup returns the same plain handle. The indexed lookup then builds a different, indexed handle on the same target, and from then on the plain lookup returns that indexed handle. |
| BeanWrapper.SetNameThenReadBack | lis-commons-beans/src/main/java/com/link_intersystems/beans/Property.java:47-53 | The documented example, with the wrapper bound to the bean: setting "Hello" through the resolved handle makes the bean's getter, and the handle resolved again, return "Hello". |
| BeanWrapper.TypeOfResolvedProperty | lis-commons-beans/src/main/java/com/link_intersystems/beans/Property.java:114-128 | The handle the wrapper resolves yields its descriptor's declared type, and a second call yields the same type. |
| BeanWrapper.LazyTargetReadsDefaults | lis-commons-beans/src/main/java/com/link_intersystems/beans/Bean.java:62-66 | A wrapper made from a class reads, through the first handle it resolves, the field values its class's default constructor sets. |
| BeanWrapper.KnownNameResolvesAsWritten | lis-commons-beans/src/main/java/com/link_intersystems/beans/Bean.java:129-135 | On a wrapper bound to an instance, the as-written lookup of a name the class has resolves to a handle for that name, the same one the corrected lookup then returns. |
| GraphFacade.ForAllDo | lis-commons-lang/src/main/java/com/link_intersystems/util/graph/GraphFacade.java:70-75 | The resulting state is the closure applied to every node the iterator yields, one at a time, in iteration order. |
| GraphFacade.FoldRecordsEachNodeOnce | lis-commons-lang/src/main/java/com/link_intersystems/util/graph/GraphFacade.java:70-75 | A closure that records each node it is given records exactly the iterator's nodes, each once, in order. |
| GraphFacade.TraverseBreadthFirst | lis-commons-lang/src/main/java/com/link_intersystems/util/graph/GraphFacade.java:47-50 | The closure is applied to exactly the breadth-first order from the start node, in that order. |
| GraphFacade.TraverseDepthFirst | lis-commons-lang/src/main/java/com/link_intersystems/util/graph/GraphFacade.java:64-68 | The closure is applied to exactly the depth-first order from the start node, in that order. |
| GraphFacade.PerPredicateNodeIterator | lis-commons-lang/src/main/java/com/link_intersystems/util/graph/GraphFacade.java:131-152 | It yields, in predicate order, the strategy's traversal from the start node filtered by each predicate. With no predicates it yields nothing. |
| GraphFacade.Filter | lis-commons-lang/src/main/java/com/link_intersystems/util/graph/GraphFacade.java:146-147 | A filtered traversal is never longer than the traversal. |
| GraphFacade.FilterKeepsOnlyMatches | lis-commons-lang/src/main/java/com/link_intersystems/util/graph/GraphFacade.java:146-147 | Every node a filtered traversal yields matches the predicate. |
| GraphFacade.FilterIsSubsequence | lis-commons-lang/src/main/java/com/link_intersystems/util/graph/GraphFacade.java:146-147 | A filtered traversal keeps the traversal's relative order. |
| GraphFacade.FilterLength | lis-commons-lang/src/main/java/com/link_intersystems/util/graph/GraphFacade.java:146-147 | A filtered traversal is as long as the number of matching nodes. |
| GraphFacade.FilterMultiplicity | lis-commons-lang/src/main/java/com/link_intersystems/util/graph/GraphFacade.java:146-147 | A node occurs in a filtered traversal as often as in the traversal if it matches, and not at all otherwise. |
| GraphFacade.PerPredicateLength | lis-commons-lang/src/main/java/com/link_intersystems/util/graph/GraphFacade.java:137-145 | Each predicate restarts the traversal, so the result's length is the sum over the predicates of their match counts. |
| GraphFacade.PerPredicateMultiplicity | lis-commons-lang/src/main/java/com/link_intersystems/util/graph/GraphFacade.java:98-121 | A node matched by k predicates occurs k times per occurrence in the traversal. |
| GraphFacade.PerPredicatePrefix | lis-commons-lang/src/main/java/com/link_intersystems/util/graph/GraphFacade.java:148-149 | Chaining only appends: the result for the first j predicates is a prefix of the full result. |
| GraphFacade.PerPredicateSegment | lis-commons-lang/src/main/java/com/link_intersystems/util/graph/GraphFacade.java:146-149 | Segment i of the result, which starts after the earlier predicates' segments, is the traversal filtered by predicate i. Every node in it matches predicate i, and it keeps the traversal's order. |
| GraphFacade.PerPredicateOfThree | lis-commons-lang/src/main/java/com/link_intersystems/util/graph/GraphFacade.java:103-106 | With three predicates the iterator yields the matches of the first, then of the second, then of the third. |
| GraphFacade.DocumentedFilterFirst | lis-commons-lang/src/main/java/com/link_intersystems/util/graph/GraphFacade.java:99 | The documented tree's breadth-first order filtered by the first predicate is A C D H K. |
| GraphFacade.DocumentedFilterSecond | lis-commons-lang/src/main/java/com/link_intersystems/util/graph/GraphFacade.java:100 | Filtered by the second predicate, it is A B E F. |
| GraphFacade.DocumentedFilterThird | lis-commons-lang/src/main/java/com/link_intersystems/util/graph/GraphFacade.java:101 | Filtered by the third predicate, it is D J M N. |
| GraphFacade.DocumentedPerPredicateExample | lis-commons-lang/src/main/java/com/link_intersystems/util/graph/GraphFacade.java:87-121 | The documented example: breadth first from A with the three predicates yields A C D H K, then A B E F, then D J M N, so A appears twice. |

## Left out

- Java reflection and introspection are not modelled. That covers `Method.invoke`, return and parameter types, and `PropertyDescriptor`. An accessor is data that says which field it returns or stores, or which cause it throws, so a throwing setter is modelled as leaving the target unchanged.
- `BeanClass` is not part of this model. It appears only as a fixed descriptor table, an optional default instance and the choice of what its descriptor lookup does for an unknown name; its process-wide, concurrently filled metadata cache is out of scope.
- The indexed lookup asks `BeanClass.getPropertyDescriptor`, whose source is not part of this model. For an unknown name it may yield null or raise not-found; `BeanClass.unknownIndexedName` chooses which, and the contracts state both outcomes.
- `BeanWrapper.Bean.HasProperty`, `HasIndexedProperty` and `HasAnyProperty`: the probes let the instantiation error escape, so a probe can fail.
- `PropertyAccess.WriteAccess`: an `IllegalArgumentException` from `Method.invoke`, raised for an argument the setter's parameter type rejects (such as null for a primitive), escapes `setValue` unwrapped. It is not modelled: every value is accepted by a setter.
- `PropertyAccess.Property.SetValue`: for the same reason it never reports the unwrapped argument error.
- `BeanWrapper.SetNameThenReadBack`: the documented snippet creates `someBean` but builds its wrapper with `new Bean<SomeBean>()`, which is no constructor `Bean.java` has (there are only `Bean(T)` and `Bean(Class<T>)`), so the snippet does not compile as written. The model binds `someBean` with `FromInstance`, as the example evidently means.
- `IndexedProperty`'s index-level get and set and its bounds errors are not modelled, because that class is not part of this model. An indexed handle is a `Property` marked `indexed`.
- The `Assert.notNull` checks in the constructors are not modelled as errors. Dafny references are non-null, so a null bean, class or descriptor cannot be passed.
- Generics, unchecked casts, `Serializable` and `java.util.Formatter` are not modelled. `FormatTo` keeps only the rendered string's shape, and a class's canonical name is its `className`.
- The concrete breadth-first and depth-first iterators, and commons-collections' `IteratorUtils`, `Closure` and `Predicate`, are not part of this model. Traversal order is the parameter `traverse`, predicates are `N -> bool`, and a closure's effect is a step function on a state.
- Iterators are modelled eagerly. `PerPredicateNodeIterator` returns the whole sequence the chained iterator would yield, and each traversal is computed up front instead of lazily.
- The graph nodes are a type parameter. Node identity, children and cycles belong to the traversal classes, which are not part of this model.
- `BeanEventSupportTest`, `PrimitiveArrayCallbackTest`, `IdentityComparatorTest` and `Package2EqualsAndHashCodeTest` are not modelled: they test classes outside Bean, Property and GraphFacade.

## Findings

| source | as written | input that shows it | evidently intended | confidence | as-written member | corrected member |
|---|---|---|---|---|---|---|
| lis-commons-beans/src/main/java/com/link_intersystems/beans/Bean.java:132 | The not-found error is built from `bean.getClass()`, but on a wrapper made from a class `bean` is still null when the name is unknown. | `new Bean(SomeBean.class).getProperty("noSuchName")` | Raise `NoSuchPropertyException` for the bean's class. | not executed | BeanWrapper.Bean.GetPropertyAsWritten, BeanWrapper.LazyWrapperUnknownName | BeanWrapper.Bean.GetProperty |
| lis-commons-beans/src/main/java/com/link_intersystems/beans/Bean.java:92 | The same dereference on the indexed path. It is also reached for a name that has only a plain descriptor. | `new Bean(SomeBean.class).getIndexedProperty("name")` where `name` is not indexed | Raise `NoSuchPropertyException` for the bean's class. | not executed | BeanWrapper.Bean.GetIndexedPropertyAsWritten, BeanWrapper.LazyWrapperUnknownName | BeanWrapper.Bean.GetIndexedProperty |
